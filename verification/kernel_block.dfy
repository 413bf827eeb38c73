/** `pend_to_blk_obj` keeps the invariant; what it does to the mutex owner. */
module KernelBlock {
  import opened Options
  import opened Lists
  import opened KernelState
  import opened KernelSteps
  import opened KernelInvariants
  import opened KernelInheritance
  import opened KernelWaits
  import opened KernelMutexes
  import opened KernelHandOver

  /** The record of t while it pends on o. */
  function Pended(s: State, t: Tid, o: Oid, ticks: nat): Task {
    var k := s.T(t).(blkObj := Some(o), state := Pend);
    if ticks == WAIT_FOREVER || ticks == 0 then k
    else k.(tickMatch := (s.now + ticks) % TICK_SPAN, ticking := true)
  }

  lemma ReadyRmSame(s: State, s1: State, t: Tid)
    requires s1.ready == s.ready && s1.bits == s.bits && s1.highest == s.highest && s1.T(t).prio == s.T(t).prio
    ensures ReadyRm(s1, t).ready == ReadyRm(s, t).ready && ReadyRm(s1, t).bits == ReadyRm(s, t).bits
    ensures ReadyRm(s1, t).highest == ReadyRm(s, t).highest
  {
  }

  /** The state in which Block takes t off the ready queue. */
  function Pending(s: State, o: Oid, t: Tid, ticks: nat): State {
    var s1 := s.PutT(t, s.T(t).(blkObj := Some(o)));
    var s2 := if ticks != WAIT_FOREVER then TickInsert(s1, t, ticks) else s1;
    s2.PutT(t, s2.T(t).(state := Pend))
  }

  lemma PendingShape(s: State, o: Oid, t: Tid, ticks: nat)
    requires t in s.tasks
    ensures
      var s2 := Pending(s, o, t, ticks);
      && s2.tasks == s.tasks[t := Pended(s, t, o, ticks)]
      && s2 == s.(tasks := s2.tasks, ticks := s2.ticks)
      && s2.ticks == (if ticks == WAIT_FOREVER || ticks == 0 then s.ticks else InsertByTick(s, s.ticks, t, ticks))
  {
    hide InsertByTick, Remaining, Pending;
    PendingTasks(s, o, t, ticks);
    PendingTicks(s, o, t, ticks);
  }

  lemma PendingTasks(s: State, o: Oid, t: Tid, ticks: nat)
    requires t in s.tasks
    ensures
      var s2 := Pending(s, o, t, ticks);
      s2.tasks == s.tasks[t := Pended(s, t, o, ticks)] && s2 == s.(tasks := s2.tasks, ticks := s2.ticks)
  {
    hide InsertByTick, Remaining;
  }

  lemma PendingTicks(s: State, o: Oid, t: Tid, ticks: nat)
    requires t in s.tasks
    ensures Pending(s, o, t, ticks).ticks ==
      if ticks == WAIT_FOREVER || ticks == 0 then s.ticks else InsertByTick(s, s.ticks, t, ticks)
  {
    hide InsertByTick, Remaining;
    var s1 := s.PutT(t, s.T(t).(blkObj := Some(o)));
    forall u ensures Remaining(s1, u) == Remaining(s, u) { RemainingFrame(s, s1, u); }
    TickFrame(s, s1, s.ticks, t, ticks);
  }

  lemma RemainingFrame(s: State, s1: State, u: Tid)
    requires s1.now == s.now && s1.T(u).tickMatch == s.T(u).tickMatch
    ensures Remaining(s1, u) == Remaining(s, u)
  {
  }

  lemma BlockShape(s: State, o: Oid, t: Tid, ticks: nat)
    requires t in s.tasks
    ensures
      var s1, b := Block(s, o, t, ticks), s.O(o);
      && s1.tasks == s.tasks[t := Pended(s, t, o, ticks)]
      && s1.objs == s.objs[o := b.(waiters := if b.policy == Fifo then b.waiters + [t] else InsertByPrio(s, b.waiters, t))]
      && s1.ticks == (if ticks == WAIT_FOREVER || ticks == 0 then s.ticks else InsertByTick(s, s.ticks, t, ticks))
      && s1.now == s.now && s1.active == s.active && s1.schedLock == s.schedLock && s1.nesting == s.nesting
      && s1.ready == ReadyRm(s, t).ready && s1.bits == ReadyRm(s, t).bits && s1.highest == ReadyRm(s, t).highest
  {
    hide InsertByTick, InsertByPrio, Remove, ReadyRm, Pending;
    var s2 := Pending(s, o, t, ticks);
    PendingShape(s, o, t, ticks);
    BlockPending(s, o, t, ticks);
    ReadyRmFrame(s2, t);
    ReadyRmSame(s, s2, t);
    InsertFrame(s, ReadyRm(s2, t), s.O(o).waiters, t);
  }

  lemma BlockPending(s: State, o: Oid, t: Tid, ticks: nat)
    ensures
      var s3 := ReadyRm(Pending(s, o, t, ticks), t);
      var b := s3.O(o);
      Block(s, o, t, ticks) == s3.PutO(o, b.(waiters := if b.policy == Fifo then b.waiters + [t] else InsertByPrio(s3, b.waiters, t)))
  {
    hide InsertByTick, InsertByPrio, Remove, ReadyRm;
  }

  /** Only priorities matter for the insertion into a wait list, only due times for the tick list. */
  lemma {:induction false} InsertFrame(s: State, s1: State, q: seq<Tid>, t: Tid)
    ensures (forall u :: s1.T(u).prio == s.T(u).prio) ==> InsertByPrio(s1, q, t) == InsertByPrio(s, q, t)
  {
    if q != [] { InsertFrame(s, s1, q[1..], t); }
  }

  lemma {:induction false} TickFrame(s: State, s1: State, q: seq<Tid>, t: Tid, val: nat)
    requires forall u :: Remaining(s1, u) == Remaining(s, u)
    ensures InsertByTick(s1, q, t, val) == InsertByTick(s, q, t, val)
  {
    hide Remaining;
    if q != [] { TickFrame(s, s1, q[1..], t, val); }
  }

  // ---- the invariant -----------------------------------------------------------

  lemma BlockReady(s: State, o: Oid, t: Tid, ticks: nat)
    requires ReadyOk(s, None) && TasksOk(s) && t in s.tasks && s.tasks[t].state == Rdy && t != IDLE
    ensures ReadyOk(Block(s, o, t, ticks), None)
  {
    hide Block, InsertByPrio, InsertByTick, ReadyRm, ReadyOk, Remaining;
    assert TaskOk(t, s.tasks[t]);
    BlockShape(s, o, t, ticks);
    ReadyRmOk(s, t);
    ReadyRmFrame(s, t);
    ReadyFrame(ReadyRm(s, t), Block(s, o, t, ticks), t);
  }

  lemma EnterWaits(s: State, s1: State, t: Tid, o: Oid)
    requires WaitsOk(s) && t in s.tasks && !s.tasks[t].Waiting() && o in s.objs && o in s1.objs
    requires t in s1.tasks && s1.tasks == s.tasks[t := s1.tasks[t]] && s1.tasks[t].Waiting() && s1.tasks[t].blkObj == Some(o)
    requires s1.objs == s.objs[o := s.objs[o].(waiters := s1.objs[o].waiters)]
    requires NoDup(s1.objs[o].waiters) && forall y :: y in s1.objs[o].waiters <==> y in s.objs[o].waiters || y == t
    ensures WaitsOk(s1)
  {
  }

  lemma NoDupAppend(q: seq<Tid>, t: Tid)
    requires NoDup(q) && t !in q
    ensures NoDup(q + [t])
  {
  }

  lemma BlockWaits(s: State, o: Oid, t: Tid, ticks: nat)
    requires WaitsOk(s) && t in s.tasks && s.tasks[t].state == Rdy && o in s.objs
    ensures WaitsOk(Block(s, o, t, ticks)) && t !in s.objs[o].waiters
  {
    BlockShape(s, o, t, ticks);
    var q := s.objs[o].waiters;
    assert t !in q && NoDup(q);
    NoDupAppend(q, t);
    hide Block, InsertByPrio, InsertByTick;
    EnterWaits(s, Block(s, o, t, ticks), t, o);
  }

  lemma BlockSorted(s: State, o: Oid, t: Tid, ticks: nat)
    requires SortedOk(s) && t in s.tasks && o in s.objs
    ensures SortedOk(Block(s, o, t, ticks))
  {
    var s1 := Block(s, o, t, ticks);
    BlockShape(s, o, t, ticks);
    hide Block, InsertByPrio, InsertByTick;
    forall o' | o' in s1.objs && s1.objs[o'].policy == ByPrio ensures Sorted(s1, s1.objs[o'].waiters) {
      assert Sorted(s, s.objs[o'].waiters);
      if o' == o { InsertSorted(s, s.objs[o].waiters, t); }
      SortedFrame(s, s1, s1.objs[o'].waiters);
    }
  }

  lemma BlockTicks(s: State, o: Oid, t: Tid, ticks: nat)
    requires TicksOk(s) && t in s.tasks && s.tasks[t].state == Rdy
    ensures TicksOk(Block(s, o, t, ticks))
  {
    hide Block, InsertByPrio, InsertByTick, ReadyRm;
    BlockShape(s, o, t, ticks);
    assert t !in s.ticks;
    EnterTicks(s, Block(s, o, t, ticks), t);
  }

  lemma EnterTicks(s: State, s1: State, t: Tid)
    requires TicksOk(s) && t in s.tasks && !s.tasks[t].ticking
    requires t in s1.tasks && s1.tasks == s.tasks[t := s1.tasks[t]]
    requires s1.tasks[t].ticking ==> s1.tasks[t].Waiting() || s1.tasks[t].Sleeping()
    requires s1.tasks[t].Sleeping() ==> s1.tasks[t].ticking
    requires NoDup(s1.ticks) && forall y :: y in s1.ticks <==> y in s.ticks || (y == t && s1.tasks[t].ticking)
    ensures TicksOk(s1)
  {
  }

  lemma BlockMutexes(s: State, o: Oid, t: Tid, ticks: nat)
    requires MutexesOk(s, None) && t in s.tasks && s.tasks[t].state == Rdy && o in s.objs
    requires s.objs[o].kind == Mutex ==> s.objs[o].owner.Some? && s.objs[o].owner != Some(t)
    ensures MutexesOk(Block(s, o, t, ticks), None)
  {
    hide Block, InsertByPrio, InsertByTick, ReadyRm, MutexesOk;
    var s1 := Block(s, o, t, ticks);
    BlockShape(s, o, t, ticks);
    forall m | m in s1.objs && s1.objs[m].kind == Mutex ensures MutexOk(s1, m, false) {
      MutexHere(s, m, None);
    }
    MutexesAre(s1, None);
  }

  lemma BlockHolds(s: State, o: Oid, t: Tid, ticks: nat)
    requires HoldsOk(s) && LinksOk(s) && t in s.tasks && s.tasks[t].state == Rdy && o in s.objs
    ensures HoldsOk(Block(s, o, t, ticks)) && LinksOk(Block(s, o, t, ticks))
  {
    hide Block, InsertByPrio, InsertByTick, ReadyRm, HoldsOk, LinksOk;
    var s1 := Block(s, o, t, ticks);
    BlockShape(s, o, t, ticks);
    OwnsLinks(s, s1, None);
    HoldsFrame(s, s1);
  }

  lemma BlockOwns(s: State, o: Oid, t: Tid, ticks: nat)
    requires OwnsOk(s, None) && t in s.tasks && s.tasks[t].state == Rdy && o in s.objs
    requires s.objs[o].kind == Mutex ==> s.objs[o].owner.Some? && s.objs[o].owner != Some(t)
    ensures OwnsOk(Block(s, o, t, ticks), None)
  {
    hide Block, HoldsOk, LinksOk, MutexesOk;
    BlockHolds(s, o, t, ticks);
    BlockMutexes(s, o, t, ticks);
  }

  lemma BlockBase(s: State, o: Oid, t: Tid, ticks: nat)
    requires Base(s, None) && t in s.tasks && s.tasks[t].state == Rdy && t != IDLE && o in s.objs
    requires s.objs[o].kind == Mutex ==> s.objs[o].owner.Some? && s.objs[o].owner != Some(t)
    ensures Base(Block(s, o, t, ticks), None)
  {
    hide WaitsOk, SortedOk, TicksOk, OwnsOk, ReadyOk, Block, InsertByPrio, InsertByTick;
    BlockShape(s, o, t, ticks);
    BlockReady(s, o, t, ticks);
    BlockWaits(s, o, t, ticks);
    BlockSorted(s, o, t, ticks);
    BlockTicks(s, o, t, ticks);
    BlockOwns(s, o, t, ticks);
    assert TaskOk(t, s.tasks[t]);
  }

  // ---- inheritance -----------------------------------------------------------------

  lemma BlockFirst(s: State, o: Oid, t: Tid, ticks: nat)
    requires t in s.tasks && o in s.objs
    ensures
      var s1 := Block(s, o, t, ticks);
      && (forall m :: m != o ==> FirstPrio(s1, m) == FirstPrio(s, m))
      && (s.objs[o].policy == ByPrio && s.tasks[t].prio <= PRI_MAX ==>
            FirstPrio(s1, o) == if s.tasks[t].prio < FirstPrio(s, o) then s.tasks[t].prio else FirstPrio(s, o))
  {
    BlockShape(s, o, t, ticks);
    hide Block, InsertByPrio, InsertByTick;
  }

  /** Tasks that do not own o see no change. */
  lemma BlockPiElsewhere(s: State, o: Oid, t: Tid, ticks: nat, u: Tid)
    requires t in s.tasks && o in s.objs && u in s.tasks && PiAt(s, u) && o !in s.tasks[u].mutexes
    ensures PiAt(Block(s, o, t, ticks), u)
  {
    BlockShape(s, o, t, ticks);
    BlockFirst(s, o, t, ticks);
    hide Block, InsertByPrio, InsertByTick, FirstPrio;
    IsMinFrame(s, Block(s, o, t, ticks), s.tasks[u].mutexes, s.tasks[u].bPrio, s.tasks[u].prio);
  }

  /** The owner a of o, which runs no worse than t: unless it just inherited
      t's priority it keeps its own reason to run as it does. */
  lemma BlockPiOwner(s: State, o: Oid, t: Tid, ticks: nat, a: Tid)
    requires t in s.tasks && o in s.objs && a in s.tasks && a != t && o in s.tasks[a].mutexes
    requires s.objs[o].policy == ByPrio && s.tasks[t].prio <= PRI_MAX
    requires s.tasks[a].prio <= s.tasks[t].prio
    requires PiAt(s, a) ||
      (s.tasks[a].prio == s.tasks[t].prio && s.tasks[a].prio <= s.tasks[a].bPrio &&
       forall m :: m in s.tasks[a].mutexes ==> s.tasks[a].prio <= FirstPrio(s, m))
    ensures PiAt(Block(s, o, t, ticks), a)
  {
    var s1 := Block(s, o, t, ticks);
    BlockShape(s, o, t, ticks);
    BlockFirst(s, o, t, ticks);
    hide Block, InsertByPrio, InsertByTick, FirstPrio;
    var v := s.tasks[a].prio;
    assert s1.T(a) == s.tasks[a];
    if PiAt(s, a) && v != s.tasks[a].bPrio {
      var m :| m in s.tasks[a].mutexes && v == FirstPrio(s, m);
      assert v == FirstPrio(s1, m);
    } else if v != s.tasks[a].bPrio {
      assert v == FirstPrio(s1, o);
    }
  }

  /** Every task satisfies the equation after t blocked on o, given its owner does. */
  lemma BlockPi(s: State, o: Oid, t: Tid, ticks: nat, x: Option<Tid>)
    requires PiOk(s, x) && OwnsOk(s, None) && t in s.tasks && o in s.objs && s.tasks[t].state == Rdy
    requires s.objs[o].kind == Mutex ==> s.objs[o].owner.Some? && PiAt(Block(s, o, t, ticks), s.objs[o].owner.value)
    requires x == None || (s.objs[o].kind == Mutex && x == s.objs[o].owner)
    ensures PiOk(Block(s, o, t, ticks), None)
  {
    hide Block, InsertByPrio, InsertByTick, IsMin, NoDup, LinksOk, MutexesOk, FirstPrio, PiAt, Remaining;
    var s1 := Block(s, o, t, ticks);
    BlockShape(s, o, t, ticks);
    forall u | u in s1.tasks && s1.tasks[u].Live() ensures PiAt(s1, u) {
      assert s.tasks[u].Live();
      if !(s.objs[o].kind == Mutex && s.objs[o].owner == Some(u)) {
        assert o !in s.tasks[u].mutexes;
        assert PiAt(s, u);
        BlockPiElsewhere(s, o, t, ticks, u);
      }
    }
  }
}
