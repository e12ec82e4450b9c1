/**
  The buffer cache of kernel/bio.c: the circular doubly-linked list in order of use, and the protocol of
  bget(), bread(), bwrite(), bpin(), bunpin() and brelse() among any number of processes.
*/
module Bio {
  import opened Options

  const NBUF := 30

  /** The contents of a block, as one number. */
  type Data = nat

  // -------- the circle --------

  /** The head, numbered NBUF, and every buffer once. */
  ghost predicate Circle(c: seq<nat>) {
    && |c| == NBUF + 1 && c[0] == NBUF && Distinct(c)
    && (forall b :: 0 <= b <= NBUF ==> b in c)
  }

  ghost predicate Distinct(c: seq<nat>) {
    && 0 < |c| && (forall i :: 0 <= i < |c| ==> c[i] <= NBUF)
    && (forall i, j :: 0 <= i < j < |c| ==> c[i] != c[j])
  }

  function Succ(i: nat, m: nat): nat
    requires i < m
  {
    if i + 1 < m then i + 1 else 0
  }

  function After(c: seq<nat>, i: nat): nat
    requires i < |c|
  {
    c[Succ(i, |c|)]
  }

  /** The links form one cycle through the elements of `c`, in order. */
  ghost predicate Linked(c: seq<nat>, next: seq<nat>, prev: seq<nat>) {
    && |next| == |prev| == NBUF + 1
    && forall i {:trigger After(c, i)} :: 0 <= i < |c| && c[i] <= NBUF && After(c, i) <= NBUF ==>
         next[c[i]] == After(c, i) && prev[After(c, i)] == c[i]
  }

  function Remove(c: seq<nat>, i: nat): seq<nat>
    requires i < |c|
  {
    c[..i] + c[i + 1..]
  }

  function InsertFront(c: seq<nat>, b: nat): seq<nat>
    requires 0 < |c|
  {
    [c[0], b] + c[1..]
  }

  /** Taking an element out of the cycle. */
  lemma RemoveLinked(c: seq<nat>, next: seq<nat>, prev: seq<nat>, i: nat)
    requires Distinct(c) && Linked(c, next, prev) && 0 < i < |c|
    ensures next[c[i]] <= NBUF && prev[c[i]] <= NBUF
    ensures Linked(Remove(c, i), next[prev[c[i]] := next[c[i]]], prev[next[c[i]] := prev[c[i]]])
    ensures Distinct(Remove(c, i)) && c[i] !in Remove(c, i)
  {
    var r, n := Remove(c, i), |c|;
    var x, y := After(c, i - 1), After(c, i);
    assert next[c[i]] == y && prev[c[i]] == c[i - 1];
    var next', prev' := next[c[i - 1] := y], prev[y := c[i - 1]];
    forall j | 0 <= j < |r| ensures next'[r[j]] == After(r, j) && prev'[After(r, j)] == r[j] {
      var k := if j < i then j else j + 1;
      var z := After(c, k);
      assert r[j] == c[k] && next[c[k]] == z && prev[z] == c[k];
      if k == i - 1 {
        assert After(r, j) == y;
      } else {
        assert After(r, j) == z && z != y && c[k] != c[i - 1];
      }
    }
  }

  /** Putting an element in behind the head. */
  lemma InsertLinked(c: seq<nat>, next: seq<nat>, prev: seq<nat>, b: nat)
    requires Distinct(c) && Linked(c, next, prev) && b <= NBUF && b !in c
    ensures next[c[0]] <= NBUF
    ensures Linked(InsertFront(c, b), next[b := next[c[0]]][c[0] := b], prev[b := c[0]][next[c[0]] := b])
    ensures Distinct(InsertFront(c, b))
  {
    var r := InsertFront(c, b);
    var y := After(c, 0);
    assert next[c[0]] == y;
    var next', prev' := next[b := y][c[0] := b], prev[b := c[0]][y := b];
    forall j | 0 <= j < |r| ensures next'[r[j]] == After(r, j) && prev'[After(r, j)] == r[j] {
      if j >= 2 {
        var z := After(c, j - 1);
        assert r[j] == c[j - 1] && next[c[j - 1]] == z && prev[z] == c[j - 1];
        assert After(r, j) == z && z != y;
      } else {
        assert After(r, 0) == b && After(r, 1) == y;
      }
    }
  }

  // -------- looking up and recycling --------

  datatype Buf = Buf(dev: nat, blockno: nat, valid: bool, refcnt: nat, data: Data)

  predicate Matches(b: Buf, dev: nat, blockno: nat) {
    b.dev == dev && b.blockno == blockno
  }

  /** The first match at position `i` of the circle or later. */
  function FindHit(bufs: seq<Buf>, c: seq<nat>, dev: nat, blockno: nat, i: nat): (r: Option<nat>)
    requires |bufs| == NBUF && 0 < i && Circle(c)
    ensures r.Some? ==> r.value < NBUF
    decreases |c| - i
  {
    if i >= |c| then None
    else if Matches(bufs[c[i]], dev, blockno) then Some(c[i])
    else FindHit(bufs, c, dev, blockno, i + 1)
  }

  /** The last unreferenced buffer at position `i` of the circle or before. */
  function FindUnused(bufs: seq<Buf>, c: seq<nat>, i: nat): (r: Option<nat>)
    requires |bufs| == NBUF && i < |c| && Circle(c)
    ensures r.Some? ==> r.value < NBUF
  {
    if i == 0 then None
    else if bufs[c[i]].refcnt == 0 then Some(c[i])
    else FindUnused(bufs, c, i - 1)
  }

  /** bget() without the sleep-lock: the buffer found or recycled, and the buffers after it. None is the
      panic for want of buffers. */
  function Bget(bufs: seq<Buf>, c: seq<nat>, dev: nat, blockno: nat): Option<(nat, seq<Buf>)>
    requires |bufs| == NBUF && Circle(c)
  {
    match FindHit(bufs, c, dev, blockno, 1)
    case Some(b) => Some((b, bufs[b := bufs[b].(refcnt := bufs[b].refcnt + 1)]))
    case None =>
      match FindUnused(bufs, c, NBUF)
      case Some(b) => Some((b, bufs[b := bufs[b].(dev := dev, blockno := blockno, valid := false, refcnt := 1)]))
      case None => None
  }

  lemma {:induction false} FindHitMeets(bufs: seq<Buf>, c: seq<nat>, dev: nat, blockno: nat, i: nat)
    requires |bufs| == NBUF && 0 < i && Circle(c)
    ensures match FindHit(bufs, c, dev, blockno, i)
            case Some(b) => b < NBUF && Matches(bufs[b], dev, blockno)
            case None => forall j :: i <= j < |c| ==> !Matches(bufs[c[j]], dev, blockno)
    decreases |c| - i
  {
    if i < |c| && !Matches(bufs[c[i]], dev, blockno) {
      FindHitMeets(bufs, c, dev, blockno, i + 1);
    }
  }

  lemma {:induction false} FindUnusedMeets(bufs: seq<Buf>, c: seq<nat>, i: nat) returns (k: nat)
    requires |bufs| == NBUF && i < |c| && Circle(c)
    ensures match FindUnused(bufs, c, i)
            case Some(b) => 0 < k <= i && c[k] == b && b < NBUF && bufs[b].refcnt == 0 && forall j :: k < j <= i ==> bufs[c[j]].refcnt > 0
            case None => forall j :: 0 < j <= i ==> bufs[c[j]].refcnt > 0
  {
    k := i;
    if i > 0 && bufs[c[i]].refcnt != 0 {
      k := FindUnusedMeets(bufs, c, i - 1);
    }
  }

  /** A lookup misses only when no buffer holds the block. */
  lemma MissMeans(bufs: seq<Buf>, c: seq<nat>, dev: nat, blockno: nat, b: nat)
    requires |bufs| == NBUF && Circle(c) && FindHit(bufs, c, dev, blockno, 1).None? && b < NBUF
    ensures !Matches(bufs[b], dev, blockno)
  {
    FindHitMeets(bufs, c, dev, blockno, 1);
    assert b in c;
  }

  /** A buffer moved behind the head, as the most recently used. */
  function ToFront(c: seq<nat>, i: nat): seq<nat>
    requires 0 < i < |c|
  {
    InsertFront(Remove(c, i), c[i])
  }

  lemma ToFrontKeeps(c: seq<nat>, i: nat)
    requires Circle(c) && 0 < i < |c|
    ensures Circle(ToFront(c, i)) && ToFront(c, i)[1] == c[i]
    ensures forall k :: 1 < k < |c| ==> ToFront(c, i)[k] == if k <= i then c[k - 1] else c[k]
  {
    var r := ToFront(c, i);
    forall k | 1 < k < |c| ensures r[k] == if k <= i then c[k - 1] else c[k] {}
    hide ToFront;
    forall b | 0 <= b <= NBUF ensures b in r {
      assert b in c;
      var j :| 0 <= j < |c| && c[j] == b;
      assert r[if j == 0 then 0 else if j == i then 1 else if j < i then j + 1 else j] == b;
    }
  }

  class Bcache {
    var next: seq<nat>
    var prev: seq<nat>
    var bufs: seq<Buf>
    ghost var c: seq<nat>

    ghost predicate Valid()
      reads this
    {
      Circle(c) && Linked(c, next, prev) && |bufs| == NBUF
    }

    /** binit(): the list runs from the last buffer to the first. */
    constructor ()
      ensures Valid() && forall b :: 0 <= b < NBUF ==> bufs[b] == Buf(0, 0, false, 0, 0) && c[NBUF - b] == b
    {
      var none: seq<nat> := seq(NBUF + 1, _ => NBUF);
      var n: seq<nat>, p: seq<nat> := none, none;
      ghost var order: seq<nat> := [NBUF];
      for b := 0 to NBUF
        invariant |order| == b + 1 && order[0] == NBUF && Distinct(order) && Linked(order, n, p)
        invariant forall i :: 0 < i <= b ==> order[i] == b - i
      {
        InsertLinked(order, n, p, b);
        var first := n[NBUF];
        n, p := n[b := first], p[b := NBUF];
        p := p[first := b];
        n := n[NBUF := b];
        order := InsertFront(order, b);
      }
      next, prev, c := n, p, order;
      bufs := seq(NBUF, _ => Buf(0, 0, false, 0, 0));
      new;
      forall b | 0 <= b <= NBUF ensures b in c {
        assert c[if b == NBUF then 0 else NBUF - b] == b;
      }
    }

    /** The two scans of bget(): refines Bget. */
    method Get(dev: nat, blockno: nat) returns (b: nat)
      requires Valid() && Bget(bufs, c, dev, blockno).Some?
      modifies this`bufs
      ensures Valid() && b < NBUF && Bget(old(bufs), c, dev, blockno) == Some((b, bufs))
    {
      ghost var i := 1;
      ghost var a := After(c, 0);
      b := next[NBUF];
      while b != NBUF
        invariant 0 < i <= |c| && b == (if i < |c| then c[i] else NBUF)
        invariant FindHit(bufs, c, dev, blockno, 1) == FindHit(bufs, c, dev, blockno, i)
        decreases |c| - i
      {
        if bufs[b].dev == dev && bufs[b].blockno == blockno {
          bufs := bufs[b := bufs[b].(refcnt := bufs[b].refcnt + 1)];
          return;
        }
        a := After(c, i);
        b := next[b];
        i := i + 1;
      }
      i := NBUF;
      a := After(c, NBUF);
      b := prev[NBUF];
      while b != NBUF
        invariant 0 <= i < |c| && b == c[i] && FindHit(bufs, c, dev, blockno, 1).None?
        invariant FindUnused(bufs, c, NBUF) == FindUnused(bufs, c, i)
        decreases i
      {
        if bufs[b].refcnt == 0 {
          bufs := bufs[b := bufs[b].(dev := dev, blockno := blockno, valid := false, refcnt := 1)];
          return;
        }
        a := After(c, i - 1);
        b := prev[b];
        i := i - 1;
      }
      assert false;
    }

    /** brelse() without the sleep-lock: a buffer that is no longer referenced moves to the front. */
    method Release(b: nat)
      requires Valid() && b < NBUF && bufs[b].refcnt > 0
      modifies this
      ensures Valid() && bufs == old(bufs)[b := old(bufs)[b].(refcnt := old(bufs)[b].refcnt - 1)]
      ensures if bufs[b].refcnt == 0 then exists i :: 0 < i < |c| && old(c)[i] == b && c == ToFront(old(c), i) else c == old(c)
    {
      bufs := bufs[b := bufs[b].(refcnt := bufs[b].refcnt - 1)];
      if bufs[b].refcnt == 0 {
        assert b in c;
        ghost var i :| 0 <= i < |c| && c[i] == b;
        RemoveLinked(c, next, prev, i);
        prev := prev[next[b] := prev[b]];
        next := next[prev[b] := next[b]];
        InsertLinked(Remove(c, i), next, prev, b);
        next := next[b := next[NBUF]];
        prev := prev[b := NBUF];
        prev := prev[next[NBUF] := b];
        next := next[NBUF := b];
        ToFrontKeeps(c, i);
        c := ToFront(c, i);
      }
    }
  }

  // -------- the protocol --------

  /** One use of a buffer, from bget() to the end of brelse(); a process may have several at a time. */
  type Use = nat

  datatype Key = Key(dev: nat, blockno: nat)

  /** How far a use has come: it has a reference and waits for the sleep-lock, holds the lock (`ready` once
      bread() has made the contents valid), or has released the lock and not yet dropped its reference.
      `key` is the block asked for. */
  datatype Phase =
    | Waiting(b: nat, key: Key)
    | Holding(b: nat, key: Key, ready: bool)
    | Leaving(b: nat, key: Key)

  /** `pins` counts the bpin() calls not yet undone, `lock` is the use that holds each sleep-lock, `uses` are
      all the uses of buffers, and `stamp` is when each buffer last became the most recently used. */
  datatype State = State(c: seq<nat>, bufs: seq<Buf>, lock: seq<Option<Use>>, pins: seq<nat>, uses: map<Use, Phase>,
                         disk: map<Key, Data>, stamp: seq<nat>, clock: nat)

  function KeyOf(b: Buf): Key {
    Key(b.dev, b.blockno)
  }

  function Read(disk: map<Key, Data>, k: Key): Data {
    if k in disk then disk[k] else 0
  }

  datatype Action =
    | Get(p: Use, key: Key)
    | Lock(p: Use)
    | Fill(p: Use)
    | Modify(p: Use, d: Data)
    | Write(p: Use)
    | Pin(p: Use)
    | Unpin(p: Use)
    | Unlock(p: Use)
    | Drop(p: Use)

  ghost predicate Shape(s: State) {
    |s.bufs| == |s.lock| == |s.pins| == |s.stamp| == NBUF && Circle(s.c) && forall p :: p in s.uses ==> s.uses[p].b < NBUF
  }

  /** Get is called for a nonzero device when a buffer can be had; a buffer is unlocked only when its contents
      are on the disk or it is pinned, and unpinned only when it was pinned. */
  ghost predicate Enabled(s: State, a: Action)
    requires Shape(s)
  {
    match a
    case Get(p, key) => p !in s.uses && key.dev != 0 && Bget(s.bufs, s.c, key.dev, key.blockno).Some?
    case Lock(p) => p in s.uses && s.uses[p].Waiting? && s.lock[s.uses[p].b] == None
    case Fill(p) => p in s.uses && s.uses[p].Holding? && !s.uses[p].ready
    case Modify(p, d) => p in s.uses && s.uses[p].Holding? && s.uses[p].ready
    case Write(p) => p in s.uses && s.uses[p].Holding? && s.uses[p].ready
    case Pin(p) => p in s.uses && s.uses[p].Holding? && s.uses[p].ready
    case Unpin(p) => p in s.uses && s.uses[p].Holding? && s.uses[p].ready && s.pins[s.uses[p].b] > 0
    case Unlock(p) =>
      && p in s.uses && s.uses[p].Holding? && s.uses[p].ready
      && (s.pins[s.uses[p].b] > 0 || s.bufs[s.uses[p].b].data == Read(s.disk, s.uses[p].key))
    case Drop(p) => p in s.uses && s.uses[p].Leaving?
  }

  function Dec(n: nat): nat {
    if n == 0 then 0 else n - 1
  }

  /** Where buffer `b` stands in the circle. */
  function Position(c: seq<nat>, b: nat, i: nat): nat
    requires i <= |c|
    decreases |c| - i
  {
    if i == |c| then |c| else if c[i] == b then i else Position(c, b, i + 1)
  }

  lemma {:induction false} PositionMeets(c: seq<nat>, b: nat, i: nat)
    requires i <= |c| && exists j :: i <= j < |c| && c[j] == b
    ensures i <= Position(c, b, i) < |c| && c[Position(c, b, i)] == b
    decreases |c| - i
  {
    if c[i] != b { PositionMeets(c, b, i + 1); }
  }

  ghost function Next(s: State, a: Action): State
    requires Shape(s) && Enabled(s, a)
  {
    if a.Get? then
      var r := Bget(s.bufs, s.c, a.key.dev, a.key.blockno).value;
      s.(bufs := r.1, uses := s.uses[a.p := Waiting(r.0, a.key)])
    else
      var ph := s.uses[a.p];
      var b, buf := ph.b, s.bufs[ph.b];
      match a
      case Lock(p) => s.(lock := s.lock[b := Some(p)], uses := s.uses[p := Holding(b, ph.key, false)])
      case Fill(p) =>
        s.(bufs := if buf.valid then s.bufs else s.bufs[b := buf.(valid := true, data := Read(s.disk, KeyOf(buf)))],
           uses := s.uses[p := Holding(b, ph.key, true)])
      case Modify(p, d) => s.(bufs := s.bufs[b := buf.(data := d)])
      case Write(p) => s.(disk := s.disk[KeyOf(buf) := buf.data])
      case Pin(p) => s.(bufs := s.bufs[b := buf.(refcnt := buf.refcnt + 1)], pins := s.pins[b := s.pins[b] + 1])
      case Unpin(p) => s.(bufs := s.bufs[b := buf.(refcnt := Dec(buf.refcnt))], pins := s.pins[b := Dec(s.pins[b])])
      case Unlock(p) => s.(lock := s.lock[b := None], uses := s.uses[p := Leaving(b, ph.key)])
      case Drop(p) =>
        var i := Position(s.c, b, 0);
        var s1 := s.(bufs := s.bufs[b := buf.(refcnt := Dec(buf.refcnt))], uses := s.uses - {p});
        if Dec(buf.refcnt) == 0 && 0 < i < |s.c|
        then s1.(c := ToFront(s.c, i), stamp := s.stamp[b := s.clock], clock := s.clock + 1)
        else s1
  }

  ghost predicate Init(s: State) {
    && Shape(s) && s.uses == map[] && s.clock == NBUF
    && (forall b :: 0 <= b < NBUF ==>
          && !s.bufs[b].valid && s.bufs[b].dev == 0 && s.bufs[b].refcnt == 0
          && s.lock[b] == None && s.pins[b] == 0)
    && (forall i :: 0 < i <= NBUF ==> s.stamp[s.c[i]] == NBUF - i)
  }

  ghost predicate IsRun(run: seq<State>, acts: seq<Action>) {
    && |run| == |acts| + 1 && Init(run[0])
    && forall i :: 0 <= i < |acts| ==> Shape(run[i]) && Enabled(run[i], acts[i]) && run[i + 1] == Next(run[i], acts[i])
  }

  // -------- what every step keeps --------

  function Users(uses: map<Use, Phase>, b: nat): set<Use> {
    set p | p in uses && uses[p].b == b
  }

  ghost predicate BufOk(s: State, b: nat)
    requires Shape(s) && b < NBUF
  {
    var buf := s.bufs[b];
    && buf.refcnt == |Users(s.uses, b)| + s.pins[b]
    && (s.lock[b].Some? ==> var p := s.lock[b].value; p in s.uses && s.uses[p].Holding? && s.uses[p].b == b)
    && (s.pins[b] > 0 ==> buf.valid)
    && (buf.dev == 0 ==> !buf.valid)
    && (buf.valid && s.lock[b] == None && s.pins[b] == 0 ==> buf.data == Read(s.disk, KeyOf(buf)))
  }

  ghost predicate UseOk(s: State, p: Use)
    requires Shape(s) && p in s.uses
  {
    var ph := s.uses[p];
    && KeyOf(s.bufs[ph.b]) == ph.key && ph.key.dev != 0
    && (ph.Holding? ==> s.lock[ph.b] == Some(p) && (ph.ready ==> s.bufs[ph.b].valid))
  }

  ghost predicate Unique(s: State)
    requires Shape(s)
  {
    forall i, j :: 0 <= i < j < NBUF && s.bufs[i].dev != 0 ==> KeyOf(s.bufs[i]) != KeyOf(s.bufs[j])
  }

  /** The circle is in order of use, the most recent first. */
  ghost predicate ByUse(s: State)
    requires Shape(s)
  {
    && (forall i, j :: 0 < i < j < |s.c| ==> s.stamp[s.c[i]] > s.stamp[s.c[j]])
    && (forall b :: 0 <= b < NBUF ==> s.stamp[b] < s.clock)
  }

  ghost predicate Inv(s: State) {
    && Shape(s) && Unique(s) && ByUse(s)
    && (forall b {:trigger s.bufs[b]} :: 0 <= b < NBUF ==> BufOk(s, b))
    && (forall p {:trigger s.uses[p]} :: p in s.uses ==> UseOk(s, p))
  }

  lemma UsersWith(uses: map<Use, Phase>, p: Use, ph: Phase, b: nat)
    requires p !in uses
    ensures |Users(uses[p := ph], b)| == |Users(uses, b)| + if ph.b == b then 1 else 0
  {
    assert Users(uses[p := ph], b) == Users(uses, b) + if ph.b == b then {p} else {};
  }

  lemma UsersSame(uses: map<Use, Phase>, p: Use, ph: Phase, b: nat)
    requires p in uses && ph.b == uses[p].b
    ensures Users(uses[p := ph], b) == Users(uses, b)
  {
  }

  lemma UsersWithout(uses: map<Use, Phase>, p: Use, b: nat)
    requires p in uses
    ensures |Users(uses - {p}, b)| == |Users(uses, b)| - if uses[p].b == b then 1 else 0
  {
    assert Users(uses, b) == Users(uses - {p}, b) + if uses[p].b == b then {p} else {};
  }

  /** What bget() does to buffer `b`: one more reference when it holds the block, a new identity when no buffer
      holds the block and nobody uses or pins `b`. */
  ghost predicate Gets(s: State, key: Key, b: nat, x: Buf)
    requires Shape(s)
  {
    && b < NBUF && KeyOf(x) == key
    && (KeyOf(s.bufs[b]) == key ==> x == s.bufs[b].(refcnt := s.bufs[b].refcnt + 1))
    && (KeyOf(s.bufs[b]) != key ==>
          && !x.valid && x.refcnt == 1 && s.bufs[b].refcnt == 0 && s.lock[b] == None && Users(s.uses, b) == {} && s.pins[b] == 0
          && forall i :: 0 <= i < NBUF ==> KeyOf(s.bufs[i]) != key)
  }

  lemma GetMeets(s: State, key: Key)
    requires Inv(s) && key.dev != 0 && Bget(s.bufs, s.c, key.dev, key.blockno).Some?
    ensures var r := Bget(s.bufs, s.c, key.dev, key.blockno).value;
            r.0 < NBUF && |r.1| == NBUF && r.1 == s.bufs[r.0 := r.1[r.0]] && Gets(s, key, r.0, r.1[r.0])
  {
    FindHitMeets(s.bufs, s.c, key.dev, key.blockno, 1);
    var k := FindUnusedMeets(s.bufs, s.c, NBUF);
    var b := Bget(s.bufs, s.c, key.dev, key.blockno).value.0;
    if FindHit(s.bufs, s.c, key.dev, key.blockno, 1).None? {
      forall i | 0 <= i < NBUF ensures KeyOf(s.bufs[i]) != key {
        MissMeans(s.bufs, s.c, key.dev, key.blockno, i);
      }
      assert BufOk(s, b);
      assert s.lock[b].Some? ==> s.lock[b].value in Users(s.uses, b);
    }
  }

  lemma GetKeeps(s: State, a: Action)
    requires Inv(s) && Enabled(s, a) && a.Get?
    ensures Inv(Next(s, a))
  {
    GetMeets(s, a.key);
    var r := Bget(s.bufs, s.c, a.key.dev, a.key.blockno).value;
    hide Bget, Circle;
    GotKeeps(s, Next(s, a), a.p, a.key, r.0, r.1[r.0]);
  }

  ghost predicate Got(s: State, s': State, p: Use, key: Key, b: nat, x: Buf)
    requires Shape(s)
  {
    && p !in s.uses && key.dev != 0 && Gets(s, key, b, x)
    && s' == s.(bufs := s.bufs[b := x], uses := s.uses[p := Waiting(b, key)])
  }

  lemma GotShape(s: State, s': State, p: Use, key: Key, b: nat, x: Buf)
    requires Shape(s) && Got(s, s', p, key, b, x) && Unique(s) && ByUse(s)
    ensures Shape(s') && Unique(s') && ByUse(s')
  {
    hide Circle;
  }

  lemma GotBuf(s: State, s': State, p: Use, key: Key, b: nat, x: Buf, y: nat)
    requires Shape(s) && Got(s, s', p, key, b, x) && Shape(s') && y < NBUF && BufOk(s, y)
    ensures BufOk(s', y)
  {
    hide Circle, Users;
    UsersWith(s.uses, p, s'.uses[p], y);
  }

  lemma GotUse(s: State, s': State, p: Use, key: Key, b: nat, x: Buf, q: Use)
    requires Shape(s) && Got(s, s', p, key, b, x) && Shape(s') && q in s'.uses && (q != p ==> q in s.uses && UseOk(s, q))
    ensures UseOk(s', q)
  {
    hide Circle;
    if q != p {
      assert s.uses[q].b == b ==> q in Users(s.uses, b);
    }
  }

  lemma GotKeeps(s: State, s': State, p: Use, key: Key, b: nat, x: Buf)
    requires Inv(s) && Got(s, s', p, key, b, x)
    ensures Inv(s')
  {
    hide BufOk, UseOk, Gets, Circle, Unique, ByUse;
    GotShape(s, s', p, key, b, x);
    forall y | 0 <= y < NBUF ensures BufOk(s', y) {
      assert s.bufs[y] == s.bufs[y];
      GotBuf(s, s', p, key, b, x, y);
    }
    forall q | q in s'.uses ensures UseOk(s', q) {
      assert q in s.uses ==> s.uses[q] == s.uses[q];
      GotUse(s, s', p, key, b, x, q);
    }
  }

  /** Steps that leave the circle, the identity of the buffers and the users of each buffer alone. */
  ghost predicate Quiet(s: State, s': State, b: nat)
    requires Shape(s) && b < NBUF
  {
    && Shape(s') && s'.c == s.c && s'.stamp == s.stamp && s'.clock == s.clock
    && (forall x :: 0 <= x < NBUF ==> KeyOf(s'.bufs[x]) == KeyOf(s.bufs[x]))
    && (forall x :: 0 <= x < NBUF && x != b ==> s'.bufs[x] == s.bufs[x] && s'.lock[x] == s.lock[x] && s'.pins[x] == s.pins[x])
    && s'.uses.Keys == s.uses.Keys
    && (forall q :: q in s.uses ==> s'.uses[q].b == s.uses[q].b && s'.uses[q].key == s.uses[q].key)
    && (forall q :: q in s.uses && s.uses[q].b != b ==> s'.uses[q] == s.uses[q])
    && (forall k :: k != KeyOf(s.bufs[b]) ==> Read(s'.disk, k) == Read(s.disk, k))
  }

  lemma QuietKeeps(s: State, s': State, b: nat)
    requires Inv(s) && b < NBUF && Quiet(s, s', b) && s.bufs[b].dev != 0 && BufOk(s', b)
    requires forall q :: q in s.uses && s.uses[q].b == b ==> UseOk(s', q)
    ensures Inv(s')
  {
    forall x | 0 <= x < NBUF ensures BufOk(s', x) {
      if x != b {
        assert BufOk(s, x);
        assert Users(s'.uses, x) == Users(s.uses, x);
        assert KeyOf(s.bufs[x]) != KeyOf(s.bufs[b]);
        if s.lock[x].Some? { assert s'.uses[s.lock[x].value] == s.uses[s.lock[x].value]; }
      }
    }
    forall q | q in s'.uses ensures UseOk(s', q) {
      assert UseOk(s, q);
    }
  }

  lemma ActionKeeps(s: State, a: Action)
    requires Inv(s) && Enabled(s, a)
    ensures Inv(Next(s, a))
  {
    if a.Get? {
      GetKeeps(s, a);
    } else if a.Drop? {
      DropKeeps(s, a);
    } else {
      OwnKeeps(s, a);
    }
  }

  /** A step of a use on its buffer. */
  lemma OwnQuiet(s: State, a: Action)
    requires Shape(s) && Enabled(s, a) && !a.Get? && !a.Drop? && BufOk(s, s.uses[a.p].b) && UseOk(s, a.p)
    ensures Quiet(s, Next(s, a), s.uses[a.p].b) && BufOk(Next(s, a), s.uses[a.p].b)
  {
    hide Circle;
    var s', b := Next(s, a), s.uses[a.p].b;
    UsersSame(s.uses, a.p, s'.uses[a.p], b);
    assert s'.uses == s.uses[a.p := s'.uses[a.p]];
    assert a.p in Users(s.uses, b);
    hide Users;
  }

  lemma OwnUse(s: State, a: Action, q: Use)
    requires Shape(s) && Enabled(s, a) && !a.Get? && !a.Drop? && BufOk(s, s.uses[a.p].b) && UseOk(s, a.p)
    requires Shape(Next(s, a)) && q in s.uses && UseOk(s, q) && s.uses[q].b == s.uses[a.p].b
    ensures q in Next(s, a).uses && UseOk(Next(s, a), q)
  {
    hide Circle;
  }

  lemma OwnKeeps(s: State, a: Action)
    requires Inv(s) && Enabled(s, a) && !a.Get? && !a.Drop?
    ensures Inv(Next(s, a))
  {
    hide Circle, ByUse, Unique, BufOk, UseOk, Next;
    var s', b := Next(s, a), s.uses[a.p].b;
    assert s.bufs[b] == s.bufs[b];
    OwnQuiet(s, a);
    forall q | q in s.uses && s.uses[q].b == b ensures UseOk(s', q) {
      OwnUse(s, a, q);
    }
    assert s.bufs[b].dev != 0 by {
      UseKey(s, a.p);
    }
    QuietKeeps(s, s', b);
  }

  lemma UseKey(s: State, p: Use)
    requires Shape(s) && p in s.uses && UseOk(s, p)
    ensures s.bufs[s.uses[p].b].dev != 0
  {
  }

  lemma DropBuf(s: State, s': State, p: Use, x: nat)
    requires Shape(s) && Enabled(s, Drop(p)) && s' == Next(s, Drop(p)) && Shape(s') && x < NBUF && BufOk(s, x)
    ensures BufOk(s', x)
  {
    hide Circle, ToFront, Position, Users;
    UsersWithout(s.uses, p, x);
  }

  lemma DropUse(s: State, s': State, p: Use, q: Use)
    requires Shape(s) && Enabled(s, Drop(p)) && s' == Next(s, Drop(p)) && Shape(s') && q in s'.uses && q in s.uses && UseOk(s, q)
    ensures UseOk(s', q)
  {
    hide ToFront, Position, Circle;
  }

  lemma DropKeys(s: State, s': State, p: Use)
    requires Shape(s) && Enabled(s, Drop(p)) && s' == Next(s, Drop(p)) && Shape(s') && Unique(s)
    ensures s'.uses == s.uses - {p} && Unique(s')
  {
    hide ToFront, Position, Circle;
  }

  lemma DropKeeps(s: State, a: Action)
    requires Inv(s) && Enabled(s, a) && a.Drop?
    ensures Inv(Next(s, a))
  {
    hide BufOk, UseOk, Unique, ByUse, Circle, Next, Enabled;
    var s' := Next(s, a);
    DropOrder(s, a);
    DropKeys(s, s', a.p);
    forall x | 0 <= x < NBUF ensures BufOk(s', x) {
      assert s.bufs[x] == s.bufs[x];
      DropBuf(s, s', a.p, x);
    }
    forall q | q in s'.uses ensures UseOk(s', q) {
      assert q in s.uses && s.uses[q] == s.uses[q];
      DropUse(s, s', a.p, q);
    }
  }

  /** Moving the buffer to the front keeps the circle in order of use. */
  lemma FrontOrder(c: seq<nat>, stamp: seq<nat>, clock: nat, i: nat)
    requires Circle(c) && 0 < i < |c| && |stamp| == NBUF
    requires forall j, k :: 0 < j < k < |c| ==> stamp[c[j]] > stamp[c[k]]
    requires forall b :: 0 <= b < NBUF ==> stamp[b] < clock
    ensures Circle(ToFront(c, i)) && c[i] < NBUF
    ensures var c', stamp' := ToFront(c, i), stamp[c[i] := clock];
      forall j, k :: 0 < j < k < |c'| ==> stamp'[c'[j]] > stamp'[c'[k]]
  {
    ToFrontKeeps(c, i);
    hide ToFront;
    var c', stamp' := ToFront(c, i), stamp[c[i] := clock];
    forall j, k | 0 < j < k < |c'| ensures stamp'[c'[j]] > stamp'[c'[k]] {
      assert c'[k] == if k <= i then c[k - 1] else c[k];
      assert j > 1 ==> c'[j] == if j <= i then c[j - 1] else c[j];
    }
  }

  lemma DropOrder(s: State, a: Action)
    requires Inv(s) && Enabled(s, a) && a.Drop?
    ensures Shape(Next(s, a)) && ByUse(Next(s, a))
  {
    hide BufOk, UseOk, Unique, ToFront, Position;
    var b := s.uses[a.p].b;
    var i := Position(s.c, b, 0);
    if 0 < i < |s.c| {
      assert b in s.c;
      PositionMeets(s.c, b, 0);
      FrontOrder(s.c, s.stamp, s.clock, i);
    }
    hide Circle;
  }

  lemma InitInv(s: State)
    requires Init(s)
    ensures Inv(s)
  {
    forall b | 0 <= b < NBUF ensures BufOk(s, b) && s.stamp[b] < s.clock {
      assert Users(s.uses, b) == {};
      assert b in s.c;
    }
  }

  lemma {:induction false} RunInv(run: seq<State>, acts: seq<Action>, i: nat)
    requires IsRun(run, acts) && i < |run|
    ensures Inv(run[i])
  {
    if i == 0 {
      InitInv(run[0]);
    } else {
      RunInv(run, acts, i - 1);
      ActionKeeps(run[i - 1], acts[i - 1]);
    }
  }

  // -------- theorems about every run --------

  /** No block of a nonzero device is cached twice, and a reference count is the users and the pins. */
  lemma CachedOnce(run: seq<State>, acts: seq<Action>, i: nat, x: nat, y: nat)
    requires IsRun(run, acts) && i < |run| && x < NBUF && y < NBUF && Shape(run[i])
    ensures run[i].bufs[x].dev != 0 && KeyOf(run[i].bufs[x]) == KeyOf(run[i].bufs[y]) ==> x == y
    ensures run[i].bufs[x].refcnt == |Users(run[i].uses, x)| + run[i].pins[x]
  {
    RunInv(run, acts, i);
    assert BufOk(run[i], x);
  }

  lemma RecyclesOldest(s: State, key: Key)
    requires Inv(s) && key.dev != 0 && Bget(s.bufs, s.c, key.dev, key.blockno).Some?
    ensures var b := Bget(s.bufs, s.c, key.dev, key.blockno).value.0;
      b < NBUF && (KeyOf(s.bufs[b]) != key ==>
        forall x :: 0 <= x < NBUF && x != b && s.bufs[x].refcnt == 0 ==> s.stamp[b] < s.stamp[x])
  {
    hide BufOk, UseOk, Unique;
    var k := FindUnusedMeets(s.bufs, s.c, NBUF);
    FindHitMeets(s.bufs, s.c, key.dev, key.blockno, 1);
    var b := Bget(s.bufs, s.c, key.dev, key.blockno).value.0;
    forall x | 0 <= x < NBUF && x != b && s.bufs[x].refcnt == 0 && KeyOf(s.bufs[b]) != key ensures s.stamp[b] < s.stamp[x] {
      assert x in s.c;
      var j :| 0 <= j < |s.c| && s.c[j] == x;
    }
  }

  lemma KeysKept(s: State, a: Action, b: nat)
    requires Shape(s) && Enabled(s, a) && !a.Get? && b < NBUF
    ensures b < |Next(s, a).bufs| && KeyOf(Next(s, a).bufs[b]) == KeyOf(s.bufs[b])
  {
    hide Circle, ToFront, Position;
  }

  lemma GetRecycles(s: State, a: Action, b: nat)
    requires Inv(s) && Enabled(s, a) && a.Get? && b < NBUF && b < |Next(s, a).bufs|
    requires KeyOf(Next(s, a).bufs[b]) != KeyOf(s.bufs[b])
    ensures Users(s.uses, b) == {} && s.pins[b] == 0
    ensures forall x :: 0 <= x < NBUF && x != b && s.bufs[x].refcnt == 0 ==> s.stamp[b] < s.stamp[x]
  {
    hide BufOk, UseOk, Unique, ByUse, Circle, Bget;
    GetMeets(s, a.key);
    RecyclesOldest(s, a.key);
  }

  /** A buffer changes its block only in bget(), when nobody uses it and it is not pinned, and it is then the
      least recently used of the unreferenced buffers. */
  lemma RecycledOnlyUnused(run: seq<State>, acts: seq<Action>, i: nat, b: nat)
    requires IsRun(run, acts) && i < |acts| && b < NBUF && Shape(run[i]) && Shape(run[i + 1])
    requires KeyOf(run[i + 1].bufs[b]) != KeyOf(run[i].bufs[b])
    ensures acts[i].Get? && Users(run[i].uses, b) == {} && run[i].pins[b] == 0
    ensures forall x :: 0 <= x < NBUF && x != b && run[i].bufs[x].refcnt == 0 ==> run[i].stamp[b] < run[i].stamp[x]
  {
    hide Inv, Next, Enabled, Circle, Init;
    RunInv(run, acts, i);
    assert run[i + 1] == Next(run[i], acts[i]);
    if acts[i].Get? {
      GetRecycles(run[i], acts[i], b);
    } else {
      KeysKept(run[i], acts[i], b);
    }
  }

  /** A use, from bget() to the end of brelse(), has the block it asked for. */
  lemma UsesWhatItAsked(run: seq<State>, acts: seq<Action>, i: nat, p: Use)
    requires IsRun(run, acts) && i < |run| && p in run[i].uses && Shape(run[i])
    ensures KeyOf(run[i].bufs[run[i].uses[p].b]) == run[i].uses[p].key
    ensures run[i].uses[p].Holding? ==> run[i].lock[run[i].uses[p].b] == Some(p)
  {
    RunInv(run, acts, i);
    assert UseOk(run[i], p);
  }

  /** A valid buffer that is neither locked nor pinned equals its block on the disk. */
  lemma Coherent(run: seq<State>, acts: seq<Action>, i: nat, b: nat)
    requires IsRun(run, acts) && i < |run| && b < NBUF && Shape(run[i])
    requires run[i].bufs[b].valid && run[i].lock[b] == None && run[i].pins[b] == 0
    ensures run[i].bufs[b].data == Read(run[i].disk, KeyOf(run[i].bufs[b]))
  {
    RunInv(run, acts, i);
    assert BufOk(run[i], b);
  }

  // -------- what is read is what was last modified --------

  /** The block that use `p` asked for last. */
  function AskedFor(acts: seq<Action>, n: nat, p: Use): Key
    requires n <= |acts|
  {
    if n == 0 then Key(0, 0) else if acts[n - 1].Get? && acts[n - 1].p == p then acts[n - 1].key else AskedFor(acts, n - 1, p)
  }

  /** The data of the last modification of a block, or what the disk held to begin with. */
  function Current(disk: map<Key, Data>, acts: seq<Action>, n: nat, key: Key): Data
    requires n <= |acts|
  {
    if n == 0 then Read(disk, key)
    else if acts[n - 1].Modify? && AskedFor(acts, n - 1, acts[n - 1].p) == key then acts[n - 1].d
    else Current(disk, acts, n - 1, key)
  }

  /** The same as of the last bwrite() of the block. */
  function LastWritten(disk: map<Key, Data>, acts: seq<Action>, n: nat, key: Key): Data
    requires n <= |acts|
  {
    if n == 0 then Read(disk, key)
    else if acts[n - 1].Write? && AskedFor(acts, n - 1, acts[n - 1].p) == key then Current(disk, acts, n - 1, key)
    else LastWritten(disk, acts, n - 1, key)
  }

  predicate Caches(buf: Buf, key: Key) {
    buf.valid && KeyOf(buf) == key
  }

  /** The buffer that caches the block holds `v`; without one the disk does. */
  ghost predicate Carries(s: State, key: Key, v: Data)
    requires Shape(s)
  {
    && (forall b :: 0 <= b < NBUF && Caches(s.bufs[b], key) ==> s.bufs[b].data == v)
    && ((forall b :: 0 <= b < NBUF ==> !Caches(s.bufs[b], key)) ==> Read(s.disk, key) == v)
  }

  lemma AskedStep(s: State, a: Action, p: Use)
    requires Inv(s) && Enabled(s, a) && p in Next(s, a).uses
    ensures a.Get? && a.p == p ==> Next(s, a).uses[p].key == a.key
    ensures !(a.Get? && a.p == p) ==> p in s.uses && Next(s, a).uses[p].key == s.uses[p].key
  {
    hide Inv, Circle, ToFront, Position, Bget;
  }

  lemma {:induction false} Asked(run: seq<State>, acts: seq<Action>, n: nat, p: Use)
    requires IsRun(run, acts) && n <= |acts| && p in run[n].uses
    ensures run[n].uses[p].key == AskedFor(acts, n, p)
  {
    hide Inv, Next, Enabled;
    if n > 0 {
      RunInv(run, acts, n - 1);
      AskedStep(run[n - 1], acts[n - 1], p);
      if !(acts[n - 1].Get? && acts[n - 1].p == p) {
        Asked(run, acts, n - 1, p);
      }
    }
  }

  /** One buffer changes, and keeps its block. */
  lemma CarriesSame(s: State, s': State, key: Key, v: Data, b: nat)
    requires Shape(s) && Shape(s') && b < NBUF && s'.bufs == s.bufs[b := s'.bufs[b]] && s'.disk == s.disk && Carries(s, key, v)
    requires Caches(s'.bufs[b], key) <==> Caches(s.bufs[b], key)
    requires Caches(s.bufs[b], key) ==> s'.bufs[b].data == s.bufs[b].data
    ensures Carries(s', key, v)
  {
    hide Circle, Caches;
    if forall x :: 0 <= x < NBUF ==> !Caches(s'.bufs[x], key) {
      forall x | 0 <= x < NBUF ensures !Caches(s.bufs[x], key) {
        assert x != b ==> s'.bufs[x] == s.bufs[x];
      }
    }
  }

  lemma CarriesGet(s: State, a: Action, key: Key, v: Data)
    requires Inv(s) && Enabled(s, a) && a.Get? && Carries(s, key, v) && Shape(Next(s, a))
    ensures Carries(Next(s, a), key, v)
  {
    GetMeets(s, a.key);
    var b := Bget(s.bufs, s.c, a.key.dev, a.key.blockno).value.0;
    if KeyOf(s.bufs[b]) == a.key {
      CarriesSame(s, Next(s, a), key, v, b);
    } else {
      Recycled(s, Next(s, a), a.key, key, v, b);
    }
  }

  lemma Recycled(s: State, s': State, got: Key, key: Key, v: Data, b: nat)
    requires Inv(s) && Carries(s, key, v) && b < NBUF && Shape(s') && s'.disk == s.disk
    requires s'.bufs == s.bufs[b := s'.bufs[b]] && Gets(s, got, b, s'.bufs[b]) && KeyOf(s.bufs[b]) != got
    ensures Carries(s', key, v)
  {
    assert BufOk(s, b) && !Caches(s'.bufs[b], key);
    hide Circle, Inv;
    if Caches(s.bufs[b], key) {
      assert Read(s.disk, key) == v;
    } else if forall x :: 0 <= x < NBUF ==> !Caches(s'.bufs[x], key) {
      forall x | 0 <= x < NBUF ensures !Caches(s.bufs[x], key) {
        assert x != b ==> s'.bufs[x] == s.bufs[x];
      }
    }
  }

  lemma CarriesFill(s: State, a: Action, key: Key, v: Data)
    requires Inv(s) && Enabled(s, a) && a.Fill? && Carries(s, key, v) && Shape(Next(s, a))
    ensures Carries(Next(s, a), key, v)
  {
    var s', b := Next(s, a), s.uses[a.p].b;
    assert UseOk(s, a.p);
    if s.bufs[b].valid || KeyOf(s.bufs[b]) != key {
      CarriesSame(s, s', key, v, b);
    } else {
      OnlyOne(s, b, key);
      forall x | 0 <= x < NBUF ensures !Caches(s.bufs[x], key) {
        assert x != b ==> !Caches(s.bufs[x], key);
      }
    }
  }

  /** No other buffer has the block of buffer `b`. */
  lemma OnlyOne(s: State, b: nat, key: Key)
    requires Inv(s) && b < NBUF && KeyOf(s.bufs[b]) == key && key.dev != 0
    ensures forall x :: 0 <= x < NBUF && x != b ==> !Caches(s.bufs[x], key)
  {
  }

  lemma CarriesModify(s: State, a: Action, key: Key, v: Data)
    requires Inv(s) && Enabled(s, a) && a.Modify? && Carries(s, key, v) && Shape(Next(s, a))
    ensures Carries(Next(s, a), key, if s.uses[a.p].key == key then a.d else v)
  {
    var s', b := Next(s, a), s.uses[a.p].b;
    assert UseOk(s, a.p);
    if KeyOf(s.bufs[b]) != key {
      CarriesSame(s, s', key, v, b);
    } else {
      OnlyOne(s, b, key);
      assert Caches(s'.bufs[b], key);
    }
  }

  lemma CarriesWrite(s: State, a: Action, key: Key, v: Data)
    requires Inv(s) && Enabled(s, a) && a.Write? && Carries(s, key, v) && Shape(Next(s, a))
    ensures Carries(Next(s, a), key, v)
    ensures Read(Next(s, a).disk, key) == if s.uses[a.p].key == key then v else Read(s.disk, key)
  {
    var b := s.uses[a.p].b;
    assert UseOk(s, a.p);
    assert s.uses[a.p].key == key ==> Caches(s.bufs[b], key);
  }

  lemma CarriesStep(s: State, a: Action, key: Key, v: Data)
    requires Inv(s) && Enabled(s, a) && Carries(s, key, v) && Shape(Next(s, a)) && (!a.Get? ==> a.p in s.uses)
    ensures Carries(Next(s, a), key, if a.Modify? && s.uses[a.p].key == key then a.d else v)
    ensures Read(Next(s, a).disk, key) == if a.Write? && s.uses[a.p].key == key then v else Read(s.disk, key)
  {
    if a.Get? {
      CarriesGet(s, a, key, v);
    } else if a.Fill? {
      CarriesFill(s, a, key, v);
    } else if a.Modify? {
      CarriesModify(s, a, key, v);
    } else if a.Write? {
      CarriesWrite(s, a, key, v);
    } else {
      CarriesSame(s, Next(s, a), key, v, s.uses[a.p].b);
    }
  }

  lemma {:induction false} CarriesRun(run: seq<State>, acts: seq<Action>, n: nat, key: Key)
    requires IsRun(run, acts) && n <= |acts|
    ensures Shape(run[n]) && Carries(run[n], key, Current(run[0].disk, acts, n, key))
    ensures Read(run[n].disk, key) == LastWritten(run[0].disk, acts, n, key)
  {
    RunInv(run, acts, n);
    if n > 0 {
      hide Inv, Next, Enabled, Carries;
      CarriesRun(run, acts, n - 1, key);
      RunInv(run, acts, n - 1);
      var s, a := run[n - 1], acts[n - 1];
      UsesIn(s, a);
      if a.p in s.uses {
        Asked(run, acts, n - 1, a.p);
      }
      CarriesStep(s, a, key, Current(run[0].disk, acts, n - 1, key));
    }
  }

  lemma UsesIn(s: State, a: Action)
    requires Shape(s) && Enabled(s, a)
    ensures !a.Get? ==> a.p in s.uses
  {
  }

  /** The disk holds of every block what its last bwrite() found there as last modified, or what it held at first. */
  lemma DiskIsLastWritten(run: seq<State>, acts: seq<Action>, n: nat, key: Key)
    requires IsRun(run, acts) && n <= |acts|
    ensures Read(run[n].disk, key) == LastWritten(run[0].disk, acts, n, key)
  {
    CarriesRun(run, acts, n, key);
  }

  /** Whoever holds a buffer after bread() sees the last modification of its block, whoever made it. */
  lemma HolderSeesLast(run: seq<State>, acts: seq<Action>, n: nat, p: Use)
    requires IsRun(run, acts) && n <= |acts| && p in run[n].uses && run[n].uses[p].Holding? && run[n].uses[p].ready
    ensures Shape(run[n]) && run[n].bufs[run[n].uses[p].b].data == Current(run[0].disk, acts, n, AskedFor(acts, n, p))
  {
    RunInv(run, acts, n);
    assert UseOk(run[n], p);
    Asked(run, acts, n, p);
    CarriesRun(run, acts, n, AskedFor(acts, n, p));
  }
}
