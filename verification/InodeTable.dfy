/**
  The in-memory inode table of kernel/fs.c: references, the per-inode sleep-lock, `valid`, and the
  freeing of unlinked inodes by iput() while other processes allocate, look up and lock inodes.

  A handle is one in-memory pointer to a table entry.  Every section under itable.lock is one step,
  and so is each stage of the locked part of iput().
*/
module InodeTable {

  const NONE := -1

  /** An inode: its type (0 is free), its link count, and the rest of its fields. */
  datatype Inode = Inode(typ: nat, nlink: nat, data: int)

  /** A table entry. `dirty` means the locked copy differs from what iupdate() last wrote. */
  datatype Entry = Entry(inum: nat, refs: nat, valid: bool, owner: int, mem: Inode, dirty: bool)

  /** What the code using a handle is doing with it. The last five are the stages of an iput() that
      found the last reference to an unlinked inode. */
  datatype Phase = Idle | Loading | Locked | Freeing | Truncated | Untyped | Invalid | Dropping

  datatype Handle = Handle(entry: nat, phase: Phase)

  /** `links` counts the directory entries naming each inode; `allocating` holds the numbers that an
      ialloc() has claimed on disk but not yet looked up in the table. */
  datatype State = State(
    entries: seq<Entry>, disk: seq<Inode>, links: seq<nat>, handles: map<nat, Handle>, allocating: set<nat>)

  datatype Action =
    | Lookup(inum: nat, h: nat) | Reclaim(inum: nat, h: nat)
    | AllocDisk(inum: nat, typ: nat) | AllocGet(inum: nat, h: nat)
    | Dup(h: nat, h2: nat)
    | Lock(h: nat) | Load(h: nat) | Modify(h: nat, nlink: nat, data: int) | Update(h: nat) | Unlock(h: nat)
    | Link(h: nat) | Unlink(inum: nat)
    | Put(h: nat) | Truncate(h: nat) | Untype(h: nat) | Invalidate(h: nat) | FreeUnlock(h: nat) | Drop(h: nat)

  // -------- the scan of iget() --------

  /** The entry iget() settles on from slot `i`, given the first empty slot seen so far. */
  function Find(entries: seq<Entry>, inum: nat, i: nat, empty: int): int
    requires i <= |entries|
    decreases |entries| - i
  {
    if i == |entries| then empty
    else if entries[i].refs > 0 && entries[i].inum == inum then i
    else Find(entries, inum, i + 1, if empty == NONE && entries[i].refs == 0 then i else empty)
  }

  /** iget() finds the entry already holding the inode, or else an unused one, or else panics. */
  lemma {:induction false} FindMeets(entries: seq<Entry>, inum: nat, i: nat, empty: int)
    requires i <= |entries|
    requires empty == NONE || (0 <= empty < i && entries[empty].refs == 0)
    requires empty == NONE ==> forall k :: 0 <= k < i ==> entries[k].refs > 0
    ensures var e := Find(entries, inum, i, empty);
            && (e == NONE || (0 <= e < |entries|))
            && (e != NONE && entries[e].refs > 0 ==> entries[e].inum == inum)
            && (e == NONE || entries[e].refs == 0 ==>
                  forall k :: i <= k < |entries| ==> !(entries[k].refs > 0 && entries[k].inum == inum))
            && (e == NONE ==> forall k :: 0 <= k < |entries| ==> entries[k].refs > 0)
    decreases |entries| - i
  {
    if i < |entries| && !(entries[i].refs > 0 && entries[i].inum == inum) {
      FindMeets(entries, inum, i + 1, if empty == NONE && entries[i].refs == 0 then i else empty);
    }
  }

  // -------- the machine --------

  predicate HasPhase(s: State, h: nat, phase: Phase) {
    h in s.handles && s.handles[h].phase == phase && s.handles[h].entry < |s.entries| &&
    s.entries[s.handles[h].entry].inum < |s.disk| && |s.links| == |s.disk|
  }

  predicate Live(s: State, h: nat) {
    HasPhase(s, h, Idle) || HasPhase(s, h, Loading) || HasPhase(s, h, Locked)
  }

  function EntryOf(s: State, h: nat): Entry
    requires h in s.handles && s.handles[h].entry < |s.entries|
  {
    s.entries[s.handles[h].entry]
  }

  predicate CanGet(s: State, inum: nat, h: nat) {
    h !in s.handles && inum < |s.disk| && |s.links| == |s.disk| && Find(s.entries, inum, 0, NONE) >= 0
  }

  /** The test iput() makes under itable.lock. */
  predicate LastUse(e: Entry) {
    e.refs == 1 && e.valid && e.mem.nlink == 0
  }

  predicate Enabled(s: State, a: Action) {
    match a
    case Lookup(inum, h) => CanGet(s, inum, h) && s.links[inum] > 0
    case Reclaim(inum, h) =>
      && CanGet(s, inum, h) && s.disk[inum].typ != 0 && s.disk[inum].nlink == 0 && inum !in s.allocating
      && s.links[inum] == 0
      && forall e :: 0 <= e < |s.entries| && s.entries[e].refs > 0 ==> s.entries[e].inum != inum
    case AllocDisk(inum, typ) => inum < |s.disk| && s.disk[inum].typ == 0 && typ != 0
    case AllocGet(inum, h) => CanGet(s, inum, h) && inum in s.allocating
    case Dup(h, h2) => Live(s, h) && h2 !in s.handles
    case Lock(h) => HasPhase(s, h, Idle) && EntryOf(s, h).owner == NONE
    case Load(h) => HasPhase(s, h, Loading)
    case Modify(h, nlink, data) => HasPhase(s, h, Locked) && s.links[EntryOf(s, h).inum] <= nlink
    case Update(h) => HasPhase(s, h, Locked)
    case Unlock(h) => HasPhase(s, h, Locked) && !EntryOf(s, h).dirty
    case Link(h) =>
      && Live(s, h)
      && var e := EntryOf(s, h);
         s.links[e.inum] < s.disk[e.inum].nlink && (e.valid ==> s.links[e.inum] < e.mem.nlink)
    case Unlink(inum) => inum < |s.links| && s.links[inum] > 0
    case Put(h) => HasPhase(s, h, Idle) && (LastUse(EntryOf(s, h)) ==> EntryOf(s, h).owner == NONE)
    case Truncate(h) => HasPhase(s, h, Freeing)
    case Untype(h) => HasPhase(s, h, Truncated)
    case Invalidate(h) => HasPhase(s, h, Untyped)
    case FreeUnlock(h) => HasPhase(s, h, Invalid)
    case Drop(h) => HasPhase(s, h, Dropping)
  }

  function SetEntry(s: State, h: nat, e: Entry, phase: Phase): State
    requires h in s.handles && s.handles[h].entry < |s.entries|
  {
    s.(entries := s.entries[s.handles[h].entry := e], handles := s.handles[h := s.handles[h].(phase := phase)])
  }

  /** iget() */
  function Get(s: State, inum: nat, h: nat): (r: State)
    requires CanGet(s, inum, h)
    ensures |r.entries| == |s.entries|
  {
    var i := Find(s.entries, inum, 0, NONE);
    FindMeets(s.entries, inum, 0, NONE);
    var e := s.entries[i];
    var e' := if e.refs > 0 then e.(refs := e.refs + 1)
              else e.(inum := inum, refs := 1, valid := false);
    s.(entries := s.entries[i := e'], handles := s.handles[h := Handle(i, Idle)])
  }

  /** iupdate(): the locked copy goes to disk. */
  function WriteBack(s: State, h: nat, e: Entry, phase: Phase): State
    requires h in s.handles && s.handles[h].entry < |s.entries| && e.inum < |s.disk|
  {
    var s1 := SetEntry(s, h, e.(dirty := false), phase);
    s1.(disk := s1.disk[e.inum := e.mem])
  }

  function Release(s: State, h: nat): State
    requires h in s.handles && s.handles[h].entry < |s.entries|
  {
    var i := s.handles[h].entry;
    var e := s.entries[i];
    s.(entries := s.entries[i := e.(refs := if e.refs > 0 then e.refs - 1 else 0)], handles := s.handles - {h})
  }

  function Next(s: State, a: Action): State
    requires Enabled(s, a)
  {
    match a
    case Lookup(inum, h) => Get(s, inum, h)
    case Reclaim(inum, h) => Get(s, inum, h)
    case AllocDisk(inum, typ) =>
      s.(disk := s.disk[inum := Inode(typ, 0, 0)], allocating := s.allocating + {inum})
    case AllocGet(inum, h) => Get(s, inum, h).(allocating := s.allocating - {inum})
    case Dup(h, h2) =>
      var i := s.handles[h].entry;
      s.(entries := s.entries[i := s.entries[i].(refs := s.entries[i].refs + 1)],
         handles := s.handles[h2 := Handle(i, Idle)])
    case Lock(h) => SetEntry(s, h, EntryOf(s, h).(owner := h), Loading)
    case Load(h) =>
      var e := EntryOf(s, h);
      SetEntry(s, h, if e.valid then e else e.(mem := s.disk[e.inum], valid := true), Locked)
    case Modify(h, nlink, data) =>
      var e := EntryOf(s, h);
      SetEntry(s, h, e.(mem := e.mem.(nlink := nlink, data := data), dirty := true), Locked)
    case Update(h) => WriteBack(s, h, EntryOf(s, h), Locked)
    case Unlock(h) => SetEntry(s, h, EntryOf(s, h).(owner := NONE), Idle)
    case Link(h) => s.(links := s.links[EntryOf(s, h).inum := s.links[EntryOf(s, h).inum] + 1])
    case Unlink(inum) => s.(links := s.links[inum := s.links[inum] - 1])
    case Put(h) =>
      if LastUse(EntryOf(s, h)) then SetEntry(s, h, EntryOf(s, h).(owner := h), Freeing) else Release(s, h)
    case Truncate(h) =>
      var e := EntryOf(s, h);
      WriteBack(s, h, e.(mem := e.mem.(data := 0)), Truncated)
    case Untype(h) =>
      var e := EntryOf(s, h);
      WriteBack(s, h, e.(mem := e.mem.(typ := 0)), Untyped)
    case Invalidate(h) => SetEntry(s, h, EntryOf(s, h).(valid := false), Invalid)
    case FreeUnlock(h) => SetEntry(s, h, EntryOf(s, h).(owner := NONE), Dropping)
    case Drop(h) => Release(s, h)
  }

  predicate Init(s: State) {
    && s.handles == map[] && s.allocating == {} && |s.links| == |s.disk|
    && (forall e :: 0 <= e < |s.entries| ==>
          s.entries[e].refs == 0 && s.entries[e].owner == NONE && !s.entries[e].dirty)
    && (forall i :: 0 <= i < |s.disk| ==> s.links[i] <= s.disk[i].nlink && (s.disk[i].typ == 0 ==> s.links[i] == 0))
  }

  predicate IsRun(run: seq<State>, acts: seq<Action>) {
    && |run| == |acts| + 1
    && Init(run[0])
    && forall i :: 0 <= i < |acts| ==> Enabled(run[i], acts[i]) && run[i + 1] == Next(run[i], acts[i])
  }

  // -------- the invariant --------

  /** The pointers to entry `i`. */
  function Pointers(handles: map<nat, Handle>, i: nat): set<nat> {
    set h | h in handles && handles[h].entry == i
  }

  predicate Holding(phase: Phase) {
    !phase.Idle? && !phase.Dropping?
  }

  /** The entry's in-memory copy, and the disk, are as its lock holder left them. */
  ghost predicate EntryOk(s: State, i: nat)
    requires i < |s.entries|
  {
    var e := s.entries[i];
    && |Pointers(s.handles, i)| == e.refs
    && (e.owner == NONE || (0 <= e.owner && e.owner in s.handles && s.handles[e.owner].entry == i && Holding(s.handles[e.owner].phase)))
    && (e.owner == NONE ==> !e.dirty)
    && (e.refs > 0 ==>
          && e.inum < |s.disk| && |s.links| == |s.disk|
          && (e.valid && (e.owner == NONE || s.handles[e.owner].phase.Loading? || s.handles[e.owner].phase.Locked?) ==>
                && e.mem.typ != 0 && s.links[e.inum] <= e.mem.nlink
                && (!e.dirty ==> e.mem == s.disk[e.inum])))
  }

  /** What the code holding handle `h` can count on. */
  ghost predicate HandleOk(s: State, h: nat)
    requires h in s.handles
  {
    var p := s.handles[h];
    && p.entry < |s.entries|
    && var e := s.entries[p.entry];
       && e.refs > 0 && e.inum < |s.disk| && |s.links| == |s.disk|
       && (Holding(p.phase) ==> e.owner == h)
       && (p.phase.Idle? || p.phase.Loading? || p.phase.Locked? ==> s.disk[e.inum].typ != 0 && e.inum !in s.allocating)
       && (p.phase.Loading? ==> !e.dirty)
       && (p.phase.Locked? ==> e.valid)
       && (p.phase.Freeing? || p.phase.Truncated? ==>
             && e.valid && e.refs == 1 && !e.dirty && e.mem == s.disk[e.inum] && e.mem.typ != 0 && e.mem.nlink == 0
             && s.links[e.inum] == 0 && e.inum !in s.allocating)
       && (p.phase.Untyped? || p.phase.Invalid? ==> !e.dirty)
       && (p.phase.Truncated? ==> e.mem.data == 0)
       && (p.phase.Invalid? ==> !e.valid)
  }

  /** A free inode, or one being allocated, is in no use. */
  ghost predicate DiskOk(s: State, inum: nat)
    requires inum < |s.disk| && |s.links| == |s.disk|
  {
    var d := s.disk[inum];
    && s.links[inum] <= d.nlink
    && (d.typ == 0 ==> s.links[inum] == 0)
    && (inum in s.allocating ==> d.typ != 0 && d.nlink == 0 && d.data == 0)
  }

  ghost predicate Unique(s: State) {
    forall i, j :: 0 <= i < j < |s.entries| && s.entries[i].refs > 0 && s.entries[j].refs > 0 ==>
      s.entries[i].inum != s.entries[j].inum
  }

  ghost predicate Inv(s: State) {
    && |s.links| == |s.disk|
    && Unique(s)
    && (forall i :: 0 <= i < |s.entries| ==> EntryOk(s, i))
    && (forall h :: h in s.handles ==> HandleOk(s, h))
    && (forall n :: 0 <= n < |s.disk| ==> DiskOk(s, n))
  }

  // -------- counting pointers --------

  lemma PointersPut(handles: map<nat, Handle>, h: nat, p: Handle, i: nat)
    ensures Pointers(handles[h := p], i) == if p.entry == i then Pointers(handles, i) + {h} else Pointers(handles, i) - {h}
  {
  }

  lemma PointersDrop(handles: map<nat, Handle>, h: nat, i: nat)
    ensures Pointers(handles - {h}, i) == Pointers(handles, i) - {h}
  {
  }

  lemma Sole(s: State, h: nat, h2: nat)
    requires h in s.handles && h2 in s.handles && s.handles[h].entry == s.handles[h2].entry
    requires |Pointers(s.handles, s.handles[h].entry)| == 1
    ensures h == h2
  {
    var ps := Pointers(s.handles, s.handles[h].entry);
    assert h in ps && h2 in ps;
    assert h != h2 ==> |ps - {h}| == 0 && h2 in ps - {h};
  }

  // -------- each action keeps the invariant --------

  /** Two handles of the same inode use the same entry. */
  lemma SameEntry(s: State, h: nat, h2: nat)
    requires Inv(s) && h in s.handles && h2 in s.handles
    requires EntryFits(s, h) && EntryFits(s, h2) && EntryOf(s, h).inum == EntryOf(s, h2).inum
    ensures s.handles[h].entry == s.handles[h2].entry
  {
    assert HandleOk(s, h) && HandleOk(s, h2);
  }

  predicate EntryFits(s: State, h: nat)
    requires h in s.handles
  {
    s.handles[h].entry < |s.entries|
  }

  /** Actions through handle `h` that keep the set of handles. */
  predicate ByHandle(a: Action) {
    a.Lock? || a.Load? || a.Modify? || a.Update? || a.Unlock? || a.Truncate? || a.Untype? || a.Invalidate? || a.FreeUnlock?
  }

  lemma PointersStay(s: State, a: Action, i: nat)
    requires ByHandle(a) && Enabled(s, a)
    ensures Pointers(Next(s, a).handles, i) == Pointers(s.handles, i)
  {
    var s' := Next(s, a);
    assert s'.handles == s.handles[a.h := s'.handles[a.h]] && s'.handles[a.h].entry == s.handles[a.h].entry;
    PointersPut(s.handles, a.h, s'.handles[a.h], i);
  }

  lemma ByHandleOwn(s: State, a: Action)
    requires ByHandle(a) && Enabled(s, a) && HandleOk(s, a.h)
    requires EntryOk(s, s.handles[a.h].entry) && DiskOk(s, EntryOf(s, a.h).inum)
    ensures EntryOk(Next(s, a), s.handles[a.h].entry)
  {
    hide Pointers;
    PointersStay(s, a, s.handles[a.h].entry);
  }

  lemma ByHandleOther(s: State, a: Action, i: nat)
    requires ByHandle(a) && Enabled(s, a) && HandleOk(s, a.h)
    requires i < |s.entries| && i != s.handles[a.h].entry && EntryOk(s, i)
    requires s.entries[i].refs > 0 ==> s.entries[i].inum != EntryOf(s, a.h).inum
    ensures EntryOk(Next(s, a), i)
  {
    hide Pointers;
    PointersStay(s, a, i);
  }

  lemma ByHandleSelf(s: State, a: Action)
    requires Inv(s) && ByHandle(a) && Enabled(s, a)
    ensures HandleOk(Next(s, a), a.h)
  {
    assert HandleOk(s, a.h) && EntryOk(s, s.handles[a.h].entry);
  }

  lemma ByHandleHandles(s: State, a: Action, h: nat)
    requires Inv(s) && ByHandle(a) && Enabled(s, a) && h in s.handles && h != a.h
    ensures HandleOk(Next(s, a), h)
  {
    assert HandleOk(s, a.h) && HandleOk(s, h) && EntryOk(s, s.handles[a.h].entry);
    if EntryOf(s, h).inum == EntryOf(s, a.h).inum {
      SameEntry(s, h, a.h);
      assert EntryOf(s, a.h).refs != 1 by {
        if EntryOf(s, a.h).refs == 1 { Sole(s, h, a.h); }
      }
    }
  }

  lemma ByHandleRest(s: State, a: Action, n: nat)
    requires Inv(s) && ByHandle(a) && Enabled(s, a) && n < |s.disk|
    ensures Unique(Next(s, a)) && DiskOk(Next(s, a), n)
  {
    assert HandleOk(s, a.h) && EntryOk(s, s.handles[a.h].entry) && DiskOk(s, n);
  }

  // -------- iget --------

  predicate Gets(a: Action) {
    a.Lookup? || a.Reclaim? || a.AllocGet?
  }

  /** The entry iget() returns is not one being freed, and no other entry holds the inode. */
  lemma GetFinds(s: State, a: Action, i: nat)
    requires Inv(s) && Gets(a) && Enabled(s, a) && i == Find(s.entries, a.inum, 0, NONE)
    ensures i < |s.entries| && (s.entries[i].refs > 0 ==> s.entries[i].inum == a.inum)
    ensures forall k :: 0 <= k < |s.entries| && k != i && s.entries[k].refs > 0 ==> s.entries[k].inum != a.inum
    ensures forall h :: h in s.handles && s.handles[h].entry == i ==>
              !s.handles[h].phase.Freeing? && !s.handles[h].phase.Truncated?
    ensures s.disk[a.inum].typ != 0
  {
    FindMeets(s.entries, a.inum, 0, NONE);
    assert DiskOk(s, a.inum);
    forall h | h in s.handles && s.handles[h].entry == i
      ensures !s.handles[h].phase.Freeing? && !s.handles[h].phase.Truncated?
    {
      assert HandleOk(s, h);
    }
  }

  lemma GetEntry(s: State, a: Action, k: nat)
    requires Inv(s) && Gets(a) && Enabled(s, a) && k < |s.entries|
    ensures EntryOk(Next(s, a), k)
  {
    var i: nat := Find(s.entries, a.inum, 0, NONE);
    GetFinds(s, a, i);
    assert EntryOk(s, k);
    PointersPut(s.handles, a.h, Handle(i, Idle), k);
    assert a.h !in Pointers(s.handles, k);
    assert s.entries[k].owner != NONE ==> s.entries[k].owner in Pointers(s.handles, k);
    assert s.entries[k].refs == 0 ==> s.entries[k].owner == NONE;
  }

  lemma GetHandle(s: State, a: Action, h: nat)
    requires Inv(s) && Gets(a) && Enabled(s, a) && h in Next(s, a).handles
    ensures HandleOk(Next(s, a), h)
  {
    var s' := Next(s, a);
    var i: nat := Find(s.entries, a.inum, 0, NONE);
    GetFinds(s, a, i);
    if h != a.h {
      assert HandleOk(s, h);
    } else {
      assert a.AllocGet? || a.inum !in s.allocating by {
        assert DiskOk(s, a.inum);
      }
    }
  }

  lemma GetRest(s: State, a: Action, n: nat)
    requires Inv(s) && Gets(a) && Enabled(s, a) && n < |s.disk|
    ensures Unique(Next(s, a)) && DiskOk(Next(s, a), n)
  {
    var i: nat := Find(s.entries, a.inum, 0, NONE);
    GetFinds(s, a, i);
    assert DiskOk(s, n);
  }

  // -------- idup, iput and the actions that touch no entry --------

  predicate Counts(a: Action) {
    a.Dup? || a.Put? || a.Drop?
  }

  lemma DupEntry(s: State, a: Action, k: nat)
    requires Inv(s) && a.Dup? && Enabled(s, a) && k < |s.entries|
    ensures EntryOk(Next(s, a), k)
  {
    assert HandleOk(s, a.h) && EntryOk(s, k);
    PointersPut(s.handles, a.h2, Handle(s.handles[a.h].entry, Idle), k);
    assert a.h2 !in Pointers(s.handles, k);
  }

  lemma FreeingEntry(s: State, a: Action, k: nat)
    requires Inv(s) && a.Put? && Enabled(s, a) && LastUse(EntryOf(s, a.h)) && k < |s.entries|
    ensures EntryOk(Next(s, a), k)
  {
    var s' := Next(s, a);
    assert HandleOk(s, a.h) && EntryOk(s, k);
    PointersPut(s.handles, a.h, s'.handles[a.h], k);
    assert Pointers(s'.handles, k) == Pointers(s.handles, k);
  }

  lemma ReleaseEntry(s: State, h: nat, k: nat)
    requires Inv(s) && (HasPhase(s, h, Idle) || HasPhase(s, h, Dropping)) && k < |s.entries|
    ensures EntryOk(Release(s, h), k)
  {
    assert HandleOk(s, h) && EntryOk(s, k);
    PointersDrop(s.handles, h, k);
    assert h in Pointers(s.handles, k) <==> s.handles[h].entry == k;
    var o := s.entries[k].owner;
    assert o != NONE ==> o != h;
  }

  lemma CountEntry(s: State, a: Action, k: nat)
    requires Inv(s) && Counts(a) && Enabled(s, a) && k < |s.entries|
    ensures EntryOk(Next(s, a), k)
  {
    if a.Dup? {
      DupEntry(s, a, k);
    } else if a.Put? && LastUse(EntryOf(s, a.h)) {
      FreeingEntry(s, a, k);
    } else {
      ReleaseEntry(s, a.h, k);
    }
  }

  lemma CountHandle(s: State, a: Action, h: nat)
    requires Inv(s) && Counts(a) && Enabled(s, a) && h in Next(s, a).handles
    ensures HandleOk(Next(s, a), h)
  {
    assert HandleOk(s, a.h) && EntryOk(s, s.handles[a.h].entry);
    if h in s.handles {
      assert HandleOk(s, h);
      if s.handles[h].entry == s.handles[a.h].entry && EntryOf(s, h).refs == 1 { Sole(s, h, a.h); }
    }
  }

  lemma CountRest(s: State, a: Action, n: nat)
    requires Inv(s) && Counts(a) && Enabled(s, a) && n < |s.disk|
    ensures Unique(Next(s, a)) && DiskOk(Next(s, a), n)
  {
    assert HandleOk(s, a.h) && DiskOk(s, n);
  }

  lemma OtherEntry(s: State, a: Action, k: nat)
    requires Inv(s) && (a.AllocDisk? || a.Link? || a.Unlink?) && Enabled(s, a) && k < |s.entries|
    ensures EntryOk(Next(s, a), k)
  {
    assert EntryOk(s, k);
    if a.Link? {
      assert HandleOk(s, a.h);
      assert s.entries[k].refs > 0 && s.entries[k].inum == EntryOf(s, a.h).inum ==> k == s.handles[a.h].entry;
    }
    assert Next(s, a).handles == s.handles;
  }

  lemma OtherHandle(s: State, a: Action, h: nat)
    requires Inv(s) && (a.AllocDisk? || a.Link? || a.Unlink?) && Enabled(s, a) && h in s.handles
    ensures HandleOk(Next(s, a), h)
  {
    assert HandleOk(s, h);
    if a.Link? {
      assert HandleOk(s, a.h);
      if EntryOf(s, h).inum == EntryOf(s, a.h).inum { SameEntry(s, h, a.h); }
    }
  }

  lemma OtherRest(s: State, a: Action, n: nat)
    requires Inv(s) && (a.AllocDisk? || a.Link? || a.Unlink?) && Enabled(s, a) && n < |s.disk|
    ensures Unique(Next(s, a)) && DiskOk(Next(s, a), n)
  {
    assert DiskOk(s, n);
    if a.Link? {
      assert HandleOk(s, a.h);
    }
  }

  lemma ActionKeeps(s: State, a: Action)
    requires Inv(s) && Enabled(s, a)
    ensures Inv(Next(s, a))
  {
    var s' := Next(s, a);
    forall k | 0 <= k < |s'.entries| ensures EntryOk(s', k) {
      if Gets(a) { GetEntry(s, a, k); }
      else if Counts(a) { CountEntry(s, a, k); }
      else if ByHandle(a) { if k == s.handles[a.h].entry { ByHandleOwn(s, a); } else { ByHandleOther(s, a, k); } }
      else { OtherEntry(s, a, k); }
    }
    forall h | h in s'.handles ensures HandleOk(s', h) {
      if Gets(a) { GetHandle(s, a, h); }
      else if Counts(a) { CountHandle(s, a, h); }
      else if ByHandle(a) { if h == a.h { ByHandleSelf(s, a); } else { ByHandleHandles(s, a, h); } }
      else { OtherHandle(s, a, h); }
    }
    var inum := if Gets(a) || a.AllocDisk? || a.Unlink? then a.inum else EntryOf(s, a.h).inum;
    ActionRest(s, a, inum);
    forall n | 0 <= n < |s'.disk| ensures DiskOk(s', n) {
      ActionRest(s, a, n);
    }
  }

  lemma ActionRest(s: State, a: Action, n: nat)
    requires Inv(s) && Enabled(s, a) && n < |s.disk|
    ensures |Next(s, a).disk| == |s.disk| && |Next(s, a).links| == |s.disk|
    ensures Unique(Next(s, a)) && DiskOk(Next(s, a), n)
  {
    if Gets(a) { GetRest(s, a, n); }
    else if Counts(a) { CountRest(s, a, n); }
    else if ByHandle(a) { ByHandleRest(s, a, n); }
    else { OtherRest(s, a, n); }
  }

  lemma InitHolds(s: State)
    requires Init(s)
    ensures Inv(s)
  {
    forall i | 0 <= i < |s.entries| ensures EntryOk(s, i) {
      assert Pointers(s.handles, i) == {};
    }
  }

  lemma {:induction false} RunInv(run: seq<State>, acts: seq<Action>, i: nat)
    requires IsRun(run, acts) && i < |run|
    ensures Inv(run[i])
  {
    if i == 0 {
      InitHolds(run[0]);
    } else {
      RunInv(run, acts, i - 1);
      ActionKeeps(run[i - 1], acts[i - 1]);
    }
  }

  // -------- what it gives --------

  /** In every run no inode has two entries in use, and `ref` counts exactly the pointers to an entry. */
  lemma OneEntryPerInode(run: seq<State>, acts: seq<Action>, i: nat, e: nat, f: nat)
    requires IsRun(run, acts) && i < |run| && e < |run[i].entries| && f < |run[i].entries|
    ensures run[i].entries[e].refs > 0 && run[i].entries[f].refs > 0 && run[i].entries[e].inum == run[i].entries[f].inum ==> e == f
    ensures run[i].entries[e].refs == |Pointers(run[i].handles, e)|
  {
    RunInv(run, acts, i);
    assert EntryOk(run[i], e);
  }

  /** Whoever has locked an inode, and has no change pending, sees its typed on-disk fields: never those
      of an earlier inode with the same number, whatever frees and allocations ran in between. */
  lemma LockedIsFresh(run: seq<State>, acts: seq<Action>, i: nat, h: nat)
    requires IsRun(run, acts) && i < |run| && HasPhase(run[i], h, Locked)
    ensures var e := EntryOf(run[i], h);
            e.valid && e.mem.typ != 0 && (!e.dirty ==> e.mem == run[i].disk[e.inum])
  {
    RunInv(run, acts, i);
    assert HandleOk(run[i], h) && EntryOk(run[i], run[i].handles[h].entry);
  }

  /** ilock() never meets its "no type" panic. */
  lemma LoadHasType(run: seq<State>, acts: seq<Action>, i: nat, h: nat)
    requires IsRun(run, acts) && i < |run| && HasPhase(run[i], h, Loading)
    ensures EntryOf(Next(run[i], Load(h)), h).mem.typ != 0
  {
    RunInv(run, acts, i);
    assert HandleOk(run[i], h) && EntryOk(run[i], run[i].handles[h].entry);
  }

  /** The acquiresleep() that iput() makes under itable.lock never blocks. */
  lemma IputNeverBlocks(run: seq<State>, acts: seq<Action>, i: nat, h: nat)
    requires IsRun(run, acts) && i < |run| && HasPhase(run[i], h, Idle) && LastUse(EntryOf(run[i], h))
    ensures EntryOf(run[i], h).owner == NONE
  {
    RunInv(run, acts, i);
    var s := run[i];
    assert HandleOk(s, h) && EntryOk(s, s.handles[h].entry);
    var o := EntryOf(s, h).owner;
    if o != NONE {
      Sole(s, h, o);
    }
  }

  /** An inode is given type 0 only by an iput() whose handle is the sole pointer to it, with no link and
      no directory entry naming it, after its contents were discarded. */
  lemma FreedOnlyBySoleHolder(run: seq<State>, acts: seq<Action>, i: nat, n: nat)
    requires IsRun(run, acts) && i < |acts| && n < |run[i].disk|
    ensures |run[i + 1].disk| == |run[i].disk|
    ensures run[i].disk[n].typ != 0 && run[i + 1].disk[n].typ == 0 ==>
              && acts[i].Untype? && EntryOf(run[i], acts[i].h).inum == n
              && Pointers(run[i].handles, run[i].handles[acts[i].h].entry) == {acts[i].h}
              && run[i].disk[n].nlink == 0 && run[i].links[n] == 0 && run[i].disk[n].data == 0
  {
    RunInv(run, acts, i);
    var s, a := run[i], acts[i];
    ActionRest(s, a, n);
    if ByHandle(a) {
      assert HandleOk(s, a.h) && EntryOk(s, s.handles[a.h].entry);
      if a.Untype? {
        forall h | h in Pointers(s.handles, s.handles[a.h].entry) ensures h == a.h {
          Sole(s, a.h, h);
        }
      }
    }
  }

  /** An inode number claimed by an ialloc() that has not reached the table yet is typed and blank, and the only
      pointers to it are those of an iput() that has freed it and is about to drop its own. */
  lemma AllocatedIsBlank(run: seq<State>, acts: seq<Action>, i: nat, n: nat)
    requires IsRun(run, acts) && i < |run| && n < |run[i].disk| && n in run[i].allocating
    ensures run[i].disk[n].typ != 0 && run[i].disk[n].nlink == 0 && run[i].disk[n].data == 0
    ensures forall h :: h in run[i].handles && EntryFits(run[i], h) && EntryOf(run[i], h).inum == n ==>
              var phase := run[i].handles[h].phase; phase.Untyped? || phase.Invalid? || phase.Dropping?
  {
    RunInv(run, acts, i);
    assert DiskOk(run[i], n);
    forall h | h in run[i].handles && EntryFits(run[i], h) && EntryOf(run[i], h).inum == n
      ensures var phase := run[i].handles[h].phase; phase.Untyped? || phase.Invalid? || phase.Dropping?
    {
      assert HandleOk(run[i], h);
    }
  }

  // -------- what is on disk is what was last set --------

  /** The inode that handle `h` was last made for. */
  function MadeFor(acts: seq<Action>, n: nat, h: nat): nat
    requires n <= |acts|
  {
    if n == 0 then 0
    else
      match acts[n - 1]
      case Lookup(inum, g) => if g == h then inum else MadeFor(acts, n - 1, h)
      case Reclaim(inum, g) => if g == h then inum else MadeFor(acts, n - 1, h)
      case AllocGet(inum, g) => if g == h then inum else MadeFor(acts, n - 1, h)
      case Dup(g, h2) => MadeFor(acts, n - 1, if h2 == h then g else h)
      case _ => MadeFor(acts, n - 1, h)
  }

  /** What an action makes of the fields of an inode; `on` says whether it works on that inode. */
  function Becomes(a: Action, d: Inode, on: bool): Inode {
    if !on then d
    else
      match a
      case AllocDisk(_, typ) => Inode(typ, 0, 0)
      case Modify(_, nlink, data) => d.(nlink := nlink, data := data)
      case Truncate(_) => d.(data := 0)
      case Untype(_) => d.(typ := 0)
      case _ => d
  }

  /** The actions that write an inode to disk. */
  predicate Writes(a: Action) {
    a.AllocDisk? || a.Update? || a.Truncate? || a.Untype?
  }

  predicate Through(a: Action) {
    a.Modify? || a.Update? || a.Truncate? || a.Untype?
  }

  predicate WorksOn(acts: seq<Action>, n: nat, inum: nat)
    requires n < |acts|
  {
    || (acts[n].AllocDisk? && acts[n].inum == inum)
    || (Through(acts[n]) && MadeFor(acts, n, acts[n].h) == inum)
  }

  /** The fields of an inode as last set, on disk or in a locked entry. */
  function Current(disk: seq<Inode>, acts: seq<Action>, n: nat, inum: nat): Inode
    requires n <= |acts| && inum < |disk|
  {
    if n == 0 then disk[inum] else Becomes(acts[n - 1], Current(disk, acts, n - 1, inum), WorksOn(acts, n - 1, inum))
  }

  /** The same as of the last action that wrote the inode to disk. */
  function LastWritten(disk: seq<Inode>, acts: seq<Action>, n: nat, inum: nat): Inode
    requires n <= |acts| && inum < |disk|
  {
    if n == 0 then disk[inum]
    else if Writes(acts[n - 1]) && WorksOn(acts, n - 1, inum) then Current(disk, acts, n, inum)
    else LastWritten(disk, acts, n - 1, inum)
  }

  predicate Changed(e: Entry, inum: nat) {
    e.refs > 0 && e.inum == inum && e.dirty
  }

  /** The entry with unwritten changes holds `d`; without one the disk does. */
  ghost predicate Carries(s: State, inum: nat, d: Inode)
    requires inum < |s.disk|
  {
    && (forall i :: 0 <= i < |s.entries| && Changed(s.entries[i], inum) ==> s.entries[i].mem == d)
    && ((forall i :: 0 <= i < |s.entries| ==> !Changed(s.entries[i], inum)) ==> s.disk[inum] == d)
  }

  predicate OnInode(s: State, a: Action, inum: nat) {
    || (a.AllocDisk? && a.inum == inum)
    || (Through(a) && a.h in s.handles && EntryFits(s, a.h) && EntryOf(s, a.h).inum == inum)
  }

  /** A step of the holder of a locked entry, or of an iput() freeing it. */
  lemma CarriesThrough(s: State, a: Action, inum: nat, d: Inode)
    requires Enabled(s, a) && Through(a) && inum < |s.disk| && Carries(s, inum, d)
    requires Inv(s)
    ensures |Next(s, a).disk| == |s.disk| && Carries(Next(s, a), inum, Becomes(a, d, OnInode(s, a, inum)))
    ensures Next(s, a).disk[inum] == if Writes(a) && OnInode(s, a, inum) then Becomes(a, d, true) else s.disk[inum]
  {
    var i := s.handles[a.h].entry;
    assert HandleOk(s, a.h) && EntryOk(s, i);
    var s' := Next(s, a);
    assert s'.entries == s.entries[i := s'.entries[i]] && s'.entries[i].inum == s.entries[i].inum && s'.entries[i].refs > 0;
    if OnInode(s, a, inum) {
      assert forall x :: 0 <= x < |s.entries| && x != i ==> !Changed(s.entries[x], inum);
      assert s.entries[i].mem == d by {
        if !Changed(s.entries[i], inum) {
          assert forall x :: 0 <= x < |s.entries| ==> !Changed(s.entries[x], inum);
        }
      }
      assert Changed(s'.entries[i], inum) <==> a.Modify?;
    } else {
      assert !Changed(s'.entries[i], inum) && !Changed(s.entries[i], inum);
      OtherChanged(s, s', i, inum, d);
    }
  }

  lemma OtherChanged(s: State, s': State, i: nat, inum: nat, d: Inode)
    requires inum < |s.disk| == |s'.disk| && s'.disk[inum] == s.disk[inum] && Carries(s, inum, d)
    requires i < |s.entries| == |s'.entries| && s'.entries == s.entries[i := s'.entries[i]]
    requires Changed(s'.entries[i], inum) <==> Changed(s.entries[i], inum)
    requires Changed(s.entries[i], inum) ==> s'.entries[i].mem == s.entries[i].mem
    ensures Carries(s', inum, d)
  {
    hide Changed;
    if forall x :: 0 <= x < |s'.entries| ==> !Changed(s'.entries[x], inum) {
      forall x | 0 <= x < |s.entries| ensures !Changed(s.entries[x], inum) {
        assert x != i ==> s'.entries[x] == s.entries[x];
      }
    }
  }

  lemma CarriesGet(s: State, inum: nat, h: nat, n: nat, d: Inode)
    requires CanGet(s, inum, h) && n < |s.disk| && Carries(s, n, d)
    requires Inv(s)
    ensures Carries(Get(s, inum, h), n, d)
  {
    FindMeets(s.entries, inum, 0, NONE);
    var i := Find(s.entries, inum, 0, NONE);
    assert EntryOk(s, i);
    if s.entries[i].refs == 0 {
      UnusedIsClean(s, i);
    }
    OtherChanged(s, Get(s, inum, h), i, n, d);
  }

  lemma UnusedIsClean(s: State, i: nat)
    requires i < |s.entries| && EntryOk(s, i) && s.entries[i].refs == 0
    ensures !s.entries[i].dirty
  {
    var e := s.entries[i];
    assert e.owner != NONE ==> e.owner in Pointers(s.handles, i);
  }

  lemma CarriesAlloc(s: State, a: Action, n: nat, d: Inode)
    requires Enabled(s, a) && a.AllocDisk? && n < |s.disk| && Carries(s, n, d)
    requires Inv(s)
    ensures |Next(s, a).disk| == |s.disk| && Carries(Next(s, a), n, Becomes(a, d, a.inum == n))
  {
    forall i | 0 <= i < |s.entries| ensures !Changed(s.entries[i], a.inum) {
      if Changed(s.entries[i], a.inum) {
        DirtyIsTyped(s, i);
      }
    }
  }

  /** Unwritten changes are those of a lock holder, whose inode is in use. */
  lemma DirtyIsTyped(s: State, i: nat)
    requires i < |s.entries| && s.entries[i].refs > 0 && s.entries[i].dirty
    requires Inv(s)
    ensures s.entries[i].inum < |s.disk| && s.disk[s.entries[i].inum].typ != 0
  {
    assert EntryOk(s, i);
    assert HandleOk(s, s.entries[i].owner);
  }

  /** The entry an action works on, when it sets no field of the inode. */
  lemma CarriesRest(s: State, a: Action, n: nat, d: Inode)
    requires Enabled(s, a) && !Through(a) && !Gets(a) && !a.AllocDisk? && n < |s.disk| && Carries(s, n, d)
    requires Inv(s)
    ensures Next(s, a).disk == s.disk && Carries(Next(s, a), n, d)
  {
    if !a.Link? && !a.Unlink? {
      var i := s.handles[a.h].entry;
      assert HandleOk(s, a.h) && EntryOk(s, i);
      if (a.Put? || a.Drop?) && s.entries[i].refs == 1 {
        LastIsClean(s, a.h);
      }
      OtherChanged(s, Next(s, a), i, n, d);
    }
  }

  /** The last pointer to an entry, when it does not hold the lock, leaves no unwritten changes. */
  lemma LastIsClean(s: State, h: nat)
    requires h in s.handles && EntryFits(s, h) && !Holding(s.handles[h].phase)
    requires EntryOk(s, s.handles[h].entry) && EntryOf(s, h).refs == 1
    ensures !EntryOf(s, h).dirty
  {
    var e := EntryOf(s, h);
    if e.owner != NONE {
      Sole(s, h, e.owner);
    }
  }

  lemma CarriesStep(s: State, a: Action, inum: nat, d: Inode)
    requires Enabled(s, a) && inum < |s.disk| && Carries(s, inum, d)
    requires Inv(s)
    ensures |Next(s, a).disk| == |s.disk| && Carries(Next(s, a), inum, Becomes(a, d, OnInode(s, a, inum)))
    ensures Next(s, a).disk[inum] == if Writes(a) && OnInode(s, a, inum) then Becomes(a, d, true) else s.disk[inum]
  {
    hide Inv, Carries;
    if Through(a) {
      CarriesThrough(s, a, inum, d);
    } else if Gets(a) {
      CarriesGet(s, a.inum, a.h, inum, d);
      CarriesAllocating(Get(s, a.inum, a.h), Next(s, a), inum, d);
    } else if a.AllocDisk? {
      CarriesAlloc(s, a, inum, d);
    } else {
      CarriesRest(s, a, inum, d);
    }
  }

  lemma CarriesAllocating(s: State, s': State, inum: nat, d: Inode)
    requires inum < |s.disk| && s'.entries == s.entries && s'.disk == s.disk && Carries(s, inum, d)
    ensures Carries(s', inum, d)
  {
  }

  lemma MadeStep(s: State, a: Action, h: nat)
    requires Enabled(s, a) && h in Next(s, a).handles
    requires Inv(s)
    ensures var s' := Next(s, a);
      && EntryFits(s', h)
      && (Gets(a) && a.h == h ==> EntryOf(s', h).inum == a.inum)
      && (a.Dup? && a.h2 == h ==> a.h in s.handles && EntryFits(s, a.h) && EntryOf(s', h).inum == EntryOf(s, a.h).inum)
      && (!(Gets(a) && a.h == h) && !(a.Dup? && a.h2 == h) ==>
            h in s.handles && EntryFits(s, h) && EntryOf(s', h).inum == EntryOf(s, h).inum)
  {
    if Gets(a) {
      FindMeets(s.entries, a.inum, 0, NONE);
    }
    if h in s.handles {
      assert HandleOk(s, h);
    }
  }

  lemma {:induction false} Made(run: seq<State>, acts: seq<Action>, n: nat, h: nat)
    requires IsRun(run, acts) && n <= |acts| && h in run[n].handles
    ensures EntryFits(run[n], h) && EntryOf(run[n], h).inum == MadeFor(acts, n, h)
  {
    hide Inv, Next, Enabled;
    if n > 0 {
      var s, a := run[n - 1], acts[n - 1];
      RunInv(run, acts, n - 1);
      MadeStep(s, a, h);
      if a.Dup? && a.h2 == h {
        Made(run, acts, n - 1, a.h);
      } else if !(Gets(a) && a.h == h) {
        Made(run, acts, n - 1, h);
      }
    }
  }

  lemma SameOn(run: seq<State>, acts: seq<Action>, n: nat, inum: nat)
    requires IsRun(run, acts) && n < |acts|
    ensures OnInode(run[n], acts[n], inum) <==> WorksOn(acts, n, inum)
  {
    if Through(acts[n]) {
      Made(run, acts, n, acts[n].h);
    }
  }

  lemma {:induction false} CarriesRun(run: seq<State>, acts: seq<Action>, n: nat, inum: nat)
    requires IsRun(run, acts) && n <= |acts| && inum < |run[0].disk|
    ensures |run[n].disk| == |run[0].disk| && Carries(run[n], inum, Current(run[0].disk, acts, n, inum))
    ensures run[n].disk[inum] == LastWritten(run[0].disk, acts, n, inum)
  {
    hide Inv, Next, Enabled, Becomes, OnInode, WorksOn;
    if n > 0 {
      CarriesRun(run, acts, n - 1, inum);
      RunInv(run, acts, n - 1);
      SameOn(run, acts, n - 1, inum);
      CarriesStep(run[n - 1], acts[n - 1], inum, Current(run[0].disk, acts, n - 1, inum));
    }
  }

  /** The disk holds of every inode its fields as of the last action that wrote it, iupdate() among them. */
  lemma DiskIsLastWritten(run: seq<State>, acts: seq<Action>, n: nat, inum: nat)
    requires IsRun(run, acts) && n <= |acts| && inum < |run[0].disk|
    ensures |run[n].disk| == |run[0].disk| && run[n].disk[inum] == LastWritten(run[0].disk, acts, n, inum)
  {
    CarriesRun(run, acts, n, inum);
  }

  /** Whoever has locked an inode sees its fields as last set, whoever set them. */
  lemma LockedSeesLast(run: seq<State>, acts: seq<Action>, n: nat, h: nat)
    requires IsRun(run, acts) && n <= |acts| && HasPhase(run[n], h, Locked)
    ensures var inum := MadeFor(acts, n, h);
      inum < |run[0].disk| && EntryOf(run[n], h).mem == Current(run[0].disk, acts, n, inum)
  {
    hide Inv, Carries, Next, Enabled, Current, MadeFor;
    RunInv(run, acts, n);
    Made(run, acts, n, h);
    SameSize(run, acts, n);
    CarriesRun(run, acts, n, MadeFor(acts, n, h));
    LockedCarries(run[n], h, Current(run[0].disk, acts, n, MadeFor(acts, n, h)));
  }

  lemma LockedCarries(s: State, h: nat, d: Inode)
    requires HasPhase(s, h, Locked) && Carries(s, EntryOf(s, h).inum, d)
    requires Inv(s)
    ensures EntryOf(s, h).mem == d
  {
    var i := s.handles[h].entry;
    assert HandleOk(s, h) && EntryOk(s, i);
    if !s.entries[i].dirty {
      assert forall x :: 0 <= x < |s.entries| ==> !Changed(s.entries[x], s.entries[i].inum);
    }
  }

  lemma {:induction false} SameSize(run: seq<State>, acts: seq<Action>, n: nat)
    requires IsRun(run, acts) && n <= |acts|
    ensures |run[n].disk| == |run[0].disk|
  {
    if n > 0 {
      SameSize(run, acts, n - 1);
      SizeStep(run[n - 1], acts[n - 1]);
    }
  }

  lemma SizeStep(s: State, a: Action)
    requires Enabled(s, a)
    ensures |Next(s, a).disk| == |s.disk|
  {
  }

  // -------- what iput() has done when it returns --------

  predicate Gone(phase: Phase) {
    phase.Untyped? || phase.Invalid? || phase.Dropping?
  }

  predicate OnTheWay(phase: Phase) {
    phase.Freeing? || phase.Truncated? || Gone(phase)
  }

  /** Step `k` makes the inode free and blank on disk. */
  predicate FreedAt(run: seq<State>, acts: seq<Action>, k: nat, h: nat, inum: nat) {
    |run| == |acts| + 1 && k < |acts| && acts[k] == Untype(h) && inum < |run[k + 1].disk| && run[k + 1].disk[inum] == Inode(0, 0, 0)
  }

  /** Only the iput() itself goes on, and it frees the inode before it lets go of the handle. */
  lemma FreeStep(s: State, a: Action, h: nat)
    requires Enabled(s, a) && h in s.handles && OnTheWay(s.handles[h].phase)
    requires Inv(s)
    ensures h in Next(s, a).handles ==>
      && OnTheWay(Next(s, a).handles[h].phase)
      && (Gone(Next(s, a).handles[h].phase) ==> Gone(s.handles[h].phase) || a == Untype(h))
    ensures h !in Next(s, a).handles ==> Gone(s.handles[h].phase)
  {
    hide Inv, Find;
  }

  lemma UntypeFrees(s: State, h: nat)
    requires Enabled(s, Untype(h))
    requires Inv(s)
    ensures EntryOf(s, h).inum < |Next(s, Untype(h)).disk| && Next(s, Untype(h)).disk[EntryOf(s, h).inum] == Inode(0, 0, 0)
  {
    assert HandleOk(s, h);
  }

  lemma PutStarts(s: State, h: nat)
    requires Enabled(s, Put(h))
    ensures var s' := Next(s, Put(h));
      if LastUse(EntryOf(s, h)) then h in s'.handles && s'.handles[h].phase.Freeing?
      else h !in s'.handles && s'.disk == s.disk && s'.links == s.links
  {
  }

  lemma {:induction false} PutGoes(run: seq<State>, acts: seq<Action>, i: nat, j: nat, h: nat)
    requires IsRun(run, acts) && i < j <= |acts| && acts[i] == Put(h) && LastUse(EntryOf(run[i], h))
    requires forall k :: i < k <= j ==> h in run[k].handles
    ensures OnTheWay(run[j].handles[h].phase) && EntryFits(run[j], h) && EntryOf(run[j], h).inum == EntryOf(run[i], h).inum
    ensures Gone(run[j].handles[h].phase) ==> exists k :: i < k < j && FreedAt(run, acts, k, h, EntryOf(run[i], h).inum)
    decreases j
  {
    hide Inv, Next, OnTheWay, Gone;
    var s, a, inum := run[j - 1], acts[j - 1], EntryOf(run[i], h).inum;
    assert Enabled(s, a) && run[j - 1 + 1] == Next(s, a);
    RunInv(run, acts, j - 1);
    MadeStep(s, a, h);
    if j == i + 1 {
      PutStarts(s, h);
      JustBegun(run[j].handles[h].phase);
    } else {
      PutGoes(run, acts, i, j - 1, h);
      FreeStep(s, a, h);
      NotMadeAgain(s, a, h);
      if a == Untype(h) {
        UntypeFrees(s, h);
        assert FreedAt(run, acts, j - 1, h, inum);
      }
    }
  }

  lemma JustBegun(phase: Phase)
    requires phase.Freeing?
    ensures OnTheWay(phase) && !Gone(phase)
  {
  }

  lemma NotMadeAgain(s: State, a: Action, h: nat)
    requires Enabled(s, a) && h in s.handles
    ensures !(Gets(a) && a.h == h) && !(a.Dup? && a.h2 == h)
  {
  }

  /** An iput() of the last reference to an unlinked inode has made it free and blank on disk by the time it returns;
      any other only drops the reference. */
  lemma PutReturns(run: seq<State>, acts: seq<Action>, i: nat, j: nat, h: nat)
    requires IsRun(run, acts) && i < j <= |acts| && acts[i] == Put(h) && h !in run[j].handles
    requires forall k :: i < k < j ==> h in run[k].handles
    ensures LastUse(EntryOf(run[i], h)) ==> exists k :: i < k < j && FreedAt(run, acts, k, h, EntryOf(run[i], h).inum)
    ensures !LastUse(EntryOf(run[i], h)) ==> j == i + 1 && run[j].disk == run[i].disk && run[j].links == run[i].links
  {
    hide Inv, Next, OnTheWay, Gone;
    assert run[i + 1] == Next(run[i], acts[i]) && run[j - 1 + 1] == Next(run[j - 1], acts[j - 1]);
    PutStarts(run[i], h);
    if LastUse(EntryOf(run[i], h)) {
      PutGoes(run, acts, i, j - 1, h);
      RunInv(run, acts, j - 1);
      FreeStep(run[j - 1], acts[j - 1], h);
    }
  }
}
