/** Waking tasks and passing mutexes on keep the invariant. */
module KernelMutexes {
  import opened Options
  import opened Lists
  import opened KernelState
  import opened KernelSteps
  import opened KernelInvariants
  import opened KernelInheritance
  import opened KernelWaits

  ghost predicate Calm(s: State, s1: State, t: Tid) { Others(s, s1, t) && Shrinks(s, s1) }

  lemma CalmTrans(s: State, s1: State, s2: State, t: Tid)
    requires Calm(s, s1, t) && Calm(s1, s2, t)
    ensures Calm(s, s2, t)
  {
  }

  lemma PrioOnlyCalm(s: State, s1: State, t: Tid)
    requires PrioOnly(s, s1)
    ensures Calm(s, s1, t)
  {
  }

  lemma SubEmpty(q: seq<Tid>, r: seq<Tid>)
    requires forall y :: y in q ==> y in r
    ensures r == [] ==> q == []
  {
    if q != [] { assert q[0] in r; }
  }

  /** Recomputing the priority of o mends the equation at o. */
  lemma RelookPi(s: State, o: Tid)
    requires Base(s, None) && PiBut(s, o, None) && o in s.tasks && s.tasks[o].Live() && o != IDLE
    ensures Base(Relook(s, o), None) && PiOk(Relook(s, o), None) && PrioOnly(s, Relook(s, o))
  {
    assert TaskOk(o, s.tasks[o]);
    LookIsMin(s, o);
    LookBound(s, o);
    assert WaitsOk(s);
    PriChangeOnly(s, o, Look(s, o));
    hide Base, Look, PriChange, WaitsOk;
    if Look(s, o) != s.T(o).prio {
      PriChangePi(s, o, Look(s, o), None);
    }
  }

  lemma UnblockLeft(s: State, t: Tid, why: BlkState, toReady: bool)
    requires WaitsOk(s) && TicksOk(s) && t in s.tasks && s.tasks[t].Waiting()
    ensures Left(s, Unblock(s, t, why, toReady), t)
  {
    hide Unblock, Remove, WaitsOk, TicksOk;
    WaitTarget(s, t);
    UnblockShape(s, t, why, toReady);
  }

  /** `mutex_task_pri_reset` once the wait of t has ended in s1. */
  lemma ResetFrom(s: State, s1: State, t: Tid)
    requires Base(s1, None) && t in s1.tasks
    requires NextOwner(s, t) == if s1.T(t).blkObj.Some? && s1.O(s1.T(t).blkObj.value).kind == Mutex
                                then s1.O(s1.T(t).blkObj.value).owner else None
    requires NextOwner(s, t).None? ==> PiOk(s1, None)
    requires NextOwner(s, t).Some? ==>
      var o := NextOwner(s, t).value;
      && PiBut(s1, o, None) && o in s1.tasks && s1.tasks[o].Live() && o != IDLE
      && (s1.tasks[o].prio != s1.tasks[t].prio ==> PiOk(s1, None))
    ensures Base(Reset(s1, t), None) && PiOk(Reset(s1, t), None) && PrioOnly(s1, Reset(s1, t))
  {
    hide Base, PiOk, PiBut, Relook;
    if NextOwner(s, t).Some? && s1.T(NextOwner(s, t).value).prio == s1.T(t).prio {
      RelookPi(s1, NextOwner(s, t).value);
      assert Reset(s1, t) == Relook(s1, NextOwner(s, t).value);
    } else {
      assert Reset(s1, t) == s1;
    }
  }

  lemma ResetPi(s: State, t: Tid, why: BlkState, toReady: bool)
    requires Base(s, None) && PiOk(s, None) && t in s.tasks && s.tasks[t].Waiting()
    requires !toReady ==> s.tasks[t].state == PendSuspended
    ensures
      var s1 := Unblock(s, t, why, toReady);
      Base(Reset(s1, t), None) && PiOk(Reset(s1, t), None) && PrioOnly(s1, Reset(s1, t))
  {
    hide ReadyOk, SortedOk, OwnsOk, TasksOk, TicksOk, PiOk, PiBut, Unblock, Reset, Remove, Others, Shrinks, PrioOnly, Left;
    UnblockShape(s, t, why, toReady);
    assert s.tasks[t].blkObj.value in s.objs;
    hide WaitsOk;
    UnblockBase(s, t, why, toReady, None);
    UnblockLeft(s, t, why, toReady);
    LeavePiBut(s, Unblock(s, t, why, toReady), t, None);
    hide Base, Left;
    ResetFrom(s, Unblock(s, t, why, toReady), t);
  }

  /** Timeout and wait abort: the wait ends and the owner's priority follows. */
  lemma EndWait(s: State, t: Tid, why: BlkState, toReady: bool)
    requires Base(s, None) && PiOk(s, None) && t in s.tasks && s.tasks[t].Waiting()
    requires !toReady ==> s.tasks[t].state == PendSuspended
    ensures
      var s1 := ClearBlk(Reset(Unblock(s, t, why, toReady), t), t);
      && Base(s1, None) && PiOk(s1, None) && Calm(s, s1, t)
  {
    hide Base, PiOk, Unblock, Reset;
    var s1 := Unblock(s, t, why, toReady);
    EndWaitShape(s, t, why, toReady);
    UnblockBase(s, t, why, toReady, None);
    ResetPi(s, t, why, toReady);
    hide Shrinks, Others, PrioOnly;
    PrioOnlyCalm(s1, Reset(s1, t), t);
    CalmTrans(s, s1, Reset(s1, t), t);
    ClearBlkOk(Reset(s1, t), t, None, None);
    ClearBlkCalm(Reset(s1, t), t);
    CalmTrans(s, Reset(s1, t), ClearBlk(Reset(s1, t), t), t);
  }

  lemma ClearBlkCalm(s: State, t: Tid)
    requires t in s.tasks
    ensures Calm(s, ClearBlk(s, t), t)
  {
  }

  /** What a timeout or wait abort does to the tasks and the tick list. */
  lemma EndWaitShape(s: State, t: Tid, why: BlkState, toReady: bool)
    requires Base(s, None) && PiOk(s, None) && t in s.tasks && s.tasks[t].Waiting()
    requires !toReady ==> s.tasks[t].state == PendSuspended
    ensures
      var s2 := Reset(Unblock(s, t, why, toReady), t);
      var s1 := ClearBlk(s2, t);
      && s2.tasks.Keys == s.tasks.Keys && !s2.T(t).Waiting()
      && s1.T(t).state == (if toReady then Rdy else Suspended) && s1.T(t).blkState == why && !s1.T(t).ticking
      && s1.ticks == Remove(s.ticks, t)
      && forall u :: u in s.tasks && u != t ==> s1.tasks[u] == s.tasks[u].(prio := s1.tasks[u].prio)
  {
    hide ReadyOk, SortedOk, OwnsOk, TasksOk, TicksOk, PiOk, Unblock, Reset, Remove;
    UnblockShape(s, t, why, toReady);
    assert s.tasks[t].blkObj.value in s.objs;
    ResetPi(s, t, why, toReady);
    hide Base, WaitsOk;
    PrioOnlyShape(s, Unblock(s, t, why, toReady), Reset(Unblock(s, t, why, toReady), t), t);
  }

  lemma PrioOnlyShape(s: State, s1: State, s2: State, t: Tid)
    requires PrioOnly(s1, s2)
    requires t in s1.tasks && s1.tasks.Keys == s.tasks.Keys && forall u :: u in s.tasks && u != t ==> s1.tasks[u] == s.tasks[u]
    ensures s2.tasks.Keys == s.tasks.Keys && s2.ticks == s1.ticks
    ensures s2.tasks[t] == s1.tasks[t].(prio := s2.tasks[t].prio)
    ensures forall u :: u in s.tasks && u != t ==> s2.tasks[u] == s.tasks[u].(prio := s2.tasks[u].prio)
  {
  }

  /** A wake-up without priority reset: fine where no task holds the object t waits for. */
  lemma WakeupPi(s: State, t: Tid, why: BlkState, rel: Option<Oid>, x: Option<Tid>)
    requires Base(s, rel) && PiOk(s, x) && t in s.tasks && s.tasks[t].Waiting()
    requires forall u :: u in s.tasks && s.tasks[u].Live() && Some(u) != x ==> s.tasks[t].blkObj.value !in s.tasks[u].mutexes
    ensures Base(Wakeup(s, t, why), rel) && PiOk(Wakeup(s, t, why), x) && Calm(s, Wakeup(s, t, why), t)
  {
    hide ReadyOk, SortedOk, OwnsOk, TasksOk, Unblock, Remove, IsMin;
    var ready := s.tasks[t].state == Pend;
    UnblockShape(s, t, why, ready);
    var s1 := Unblock(s, t, why, ready);
    UnblockBase(s, t, why, ready, rel);
    UnblockLeft(s, t, why, ready);
    hide Base, WaitsOk, TicksOk, Others, Shrinks, Left;
    forall u | u in s1.tasks && s1.tasks[u].Live() && Some(u) != x ensures PiAt(s1, u) {
      assert PiAt(s, u);
      LeavePiElsewhere(s, s1, t, u);
    }
    ClearBlkOk(s1, t, rel, x);
    ClearBlkCalm(s1, t);
    CalmTrans(s, s1, ClearBlk(s1, t), t);
  }

  lemma WakeupShape(s: State, t: Tid, why: BlkState)
    requires WaitsOk(s) && TicksOk(s) && t in s.tasks && s.tasks[t].Waiting()
    ensures
      var s1, k, o := Wakeup(s, t, why), s.tasks[t], s.tasks[t].blkObj.value;
      && s1.tasks == s.tasks[t := k.(ticking := false, blkState := why, blkObj := None,
           state := if k.state == Pend then Rdy else Suspended)]
      && s1.objs == s.objs[o := s.objs[o].(waiters := Remove(s.objs[o].waiters, t))]
      && s1.ticks == Remove(s.ticks, t)
  {
    UnblockShape(s, t, why, s.tasks[t].state == Pend);
    hide Remove, Unblock;
  }

  lemma WaiterOfOther(s: State, o: Oid, w: Tid)
    requires Base(s, None) && o in s.objs && s.objs[o].kind != Mutex && w in s.objs[o].waiters
    ensures w in s.tasks && s.tasks[w].Waiting() && s.tasks[w].blkObj == Some(o) && NoDup(s.objs[o].waiters)
    ensures WaitsOk(s) && TicksOk(s)
    ensures forall u :: u in s.tasks && s.tasks[u].Live() ==> o !in s.tasks[u].mutexes
  {
    hide SortedOk, ReadyOk, TasksOk, TicksOk, LinksOk, MutexesOk, NoDup;
  }

  /** All waiters of a deleted object are woken. */
  lemma {:induction false} WakeAllPi(s: State, o: Oid, q: seq<Tid>)
    requires Base(s, None) && PiOk(s, None) && o in s.objs && s.objs[o].kind != Mutex && s.objs[o].waiters == q
    ensures
      var s1 := WakeAll(s, q, BlkDel);
      && Base(s1, None) && PiOk(s1, None) && o in s1.objs && s1.objs[o].waiters == []
      && s1.active == s.active && s1.schedLock == s.schedLock && s1.nesting == s.nesting
      && s1.tasks.Keys == s.tasks.Keys && s1.objs.Keys == s.objs.Keys
      && (forall u :: u in s.tasks && s.tasks[u].state == Rdy ==> s1.tasks[u].state == Rdy)
      && (forall o' :: o' in s.objs ==> s1.objs[o'].kind == s.objs[o'].kind)
      && Shrinks(s, s1)
    decreases |q|
  {
    if q != [] {
      hide Base, PiOk, Wakeup, Remove, WaitsOk, TicksOk;
      var w := q[0];
      WaiterOfOther(s, o, w);
      RemoveHead(q);
      WakeupShape(s, w, BlkDel);
      WakeupPi(s, w, BlkDel, None, None);
      WakeAllPi(Wakeup(s, w, BlkDel), o, q[1..]);
    }
  }

  // ---- passing a mutex on --------------------------------------------------------

  lemma TakeBase(s: State, m: Oid, t: Tid, nested: nat)
    requires Base(s, Some(m)) && m in s.objs && s.objs[m].kind == Mutex
    requires t in s.tasks && s.tasks[t].Live() && t != IDLE && t !in s.objs[m].waiters
    requires forall u :: u in s.tasks && s.tasks[u].Live() ==> m !in s.tasks[u].mutexes
    requires 1 <= nested <= NESTED_MAX
    ensures Base(Take(s, m, t, nested), None)
  {
    hide OwnsOk, WaitsOk, SortedOk, ReadyOk, TicksOk, TasksOk;
    TakeOwns(s, m, t, nested);
    ReadySame(s, Take(s, m, t, nested));
    TakeLists(s, Take(s, m, t, nested));
    TakeTasks(s, Take(s, m, t, nested), t);
  }

  lemma TakeTasks(s: State, s1: State, t: Tid)
    requires TasksOk(s) && TicksOk(s) && t in s.tasks && t != IDLE
    requires t in s1.tasks && s1.tasks == s.tasks[t := s.tasks[t].(mutexes := s1.tasks[t].mutexes)]
    requires s1.ticks == s.ticks && s1.active == s.active
    ensures TasksOk(s1) && TicksOk(s1)
  {
    assert TaskOk(t, s.tasks[t]);
  }

  /** Wait lists depend on waiters, states and priorities only. */
  lemma TakeLists(s: State, s1: State)
    requires WaitsOk(s) && SortedOk(s)
    requires s1.tasks.Keys == s.tasks.Keys && s1.objs.Keys == s.objs.Keys
    requires forall u :: u in s.tasks ==> s1.tasks[u].state == s.tasks[u].state && s1.tasks[u].prio == s.tasks[u].prio && s1.tasks[u].blkObj == s.tasks[u].blkObj
    requires forall o :: o in s.objs ==> s1.objs[o].waiters == s.objs[o].waiters && s1.objs[o].policy == s.objs[o].policy
    ensures WaitsOk(s1) && SortedOk(s1)
  {
    forall o | o in s1.objs && s1.objs[o].policy == ByPrio ensures Sorted(s1, s1.objs[o].waiters) {
      hide WaitsOk;
      assert Sorted(s, s.objs[o].waiters);
    }
  }

  lemma TakeLinks(s: State, m: Oid, t: Tid, nested: nat)
    requires LinksOk(s) && m in s.objs && s.objs[m].kind == Mutex && t in s.tasks
    ensures LinksOk(Take(s, m, t, nested))
  {
    hide LinksOk;
    var s1 := Take(s, m, t, nested);
    assert forall x :: MutexPtr(s, x) ==> MutexPtr(s1, x);
    LinksFrame(s, s1);
  }

  lemma TakeOwns(s: State, m: Oid, t: Tid, nested: nat)
    requires OwnsOk(s, Some(m)) && m in s.objs && s.objs[m].kind == Mutex
    requires t in s.tasks && s.tasks[t].Live() && t !in s.objs[m].waiters
    requires forall u :: u in s.tasks && s.tasks[u].Live() ==> m !in s.tasks[u].mutexes
    requires 1 <= nested <= NESTED_MAX
    ensures OwnsOk(Take(s, m, t, nested), None)
  {
    hide Take, LinksOk, PointsToHeld, HoldsOk, MutexesOk;
    TakeLinks(s, m, t, nested);
    TakeHolds(s, m, t, nested);
    TakeMutexes(s, m, t, nested);
  }

  lemma TakeHolds(s: State, m: Oid, t: Tid, nested: nat)
    requires HoldsOk(s) && m in s.objs && s.objs[m].kind == Mutex && t in s.tasks && s.tasks[t].Live()
    requires forall u :: u in s.tasks && s.tasks[u].Live() ==> m !in s.tasks[u].mutexes
    ensures HoldsOk(Take(s, m, t, nested))
  {
    hide NoDup;
    var s1 := Take(s, m, t, nested);
    NoDupTail(s1.tasks[t].mutexes);
    assert s1.tasks[t].mutexes[1..] == s.tasks[t].mutexes;
  }

  lemma TakeMutexes(s: State, m: Oid, t: Tid, nested: nat)
    requires MutexesOk(s, Some(m)) && m in s.objs && s.objs[m].kind == Mutex
    requires t in s.tasks && s.tasks[t].Live() && t !in s.objs[m].waiters && 1 <= nested <= NESTED_MAX
    ensures MutexesOk(Take(s, m, t, nested), None)
  {
    var s1 := Take(s, m, t, nested);
    assert m in s1.tasks[t].mutexes && forall x :: x in s.tasks[t].mutexes ==> x in s1.tasks[t].mutexes;
    hide MutexesOk;
    forall m' | m' in s1.objs && s1.objs[m'].kind == Mutex ensures MutexOk(s1, m', false) {
      MutexHere(s, m', Some(m));
    }
    MutexesAre(s1, None);
  }

  lemma MutexHere(s: State, m: Oid, rel: Option<Oid>)
    requires MutexesOk(s, rel) && m in s.objs && s.objs[m].kind == Mutex
    ensures MutexOk(s, m, Some(m) == rel)
  {
  }

  lemma MutexesAre(s: State, rel: Option<Oid>)
    requires forall m :: m in s.objs && s.objs[m].kind == Mutex ==> MutexOk(s, m, Some(m) == rel)
    ensures MutexesOk(s, rel)
  {
    hide MutexOk;
  }

  /** The equation after t took m, at least as good as all that still wait for m. */
  lemma TakePi(s: State, m: Oid, t: Tid, nested: nat, x: Option<Tid>)
    requires PiOk(s, x) && m in s.objs && t in s.tasks && s.tasks[t].Live()
    requires Some(t) != x ==> s.tasks[t].prio <= FirstPrio(s, m)
    ensures PiOk(Take(s, m, t, nested), x)
  {
    var s1 := Take(s, m, t, nested);
    forall u | u in s1.tasks && s1.tasks[u].Live() && Some(u) != x ensures PiAt(s1, u) {
      assert PiAt(s, u);
      assert forall m' :: FirstPrio(s1, m') == FirstPrio(s, m');
      if u == t && s.tasks[t].prio != s.tasks[t].bPrio {
        var m' :| m' in s.tasks[t].mutexes && s.tasks[t].prio == FirstPrio(s, m');
        assert m' in s1.tasks[t].mutexes;
      }
    }
  }

  /** m leaves the list of t in r, where it may already be deleted. */
  lemma SplicedLinks(s: State, r: State, t: Tid, m: Oid)
    requires OwnsOk(s, None) && t in s.tasks && s.tasks[t].Live() && m in s.tasks[t].mutexes
    requires r == s || r == s.PutO(m, s.objs[m].(kind := NoKind))
    ensures LinksOk(Drop(r, t, m)) && PointsToHeld(Drop(r, t, m), m)
  {
    hide LinksOk, Remove, Successor;
    var s1 := Drop(r, t, m);
    assert forall x :: MutexPtr(s, x) ==> MutexPtr(s1, x);
    if s1.objs[m].next.Some? {
      var n := s1.objs[m].next.value;
      assert n in s.tasks[t].mutexes && n != m;
      assert s1.objs[n] == s.objs[n];
    }
    LinksFree(s, s1, m);
  }

  lemma DropOwns(s: State, t: Tid, m: Oid)
    requires OwnsOk(s, None) && t in s.tasks && s.tasks[t].Live() && m in s.tasks[t].mutexes
    ensures OwnsOk(Drop(s, t, m), Some(m))
    ensures forall u :: u in s.tasks && s.tasks[u].Live() ==> m !in Drop(s, t, m).tasks[u].mutexes
  {
    SplicedLinks(s, s, t, m);
    hide LinksOk, PointsToHeld, HoldsOk, MutexesOk, Drop;
    DropHolds(s, s, t, m);
    DropMutexes(s, s, t, m);
  }

  /** m leaves the list of t in r, where it may already be deleted. */
  lemma DropHolds(s: State, r: State, t: Tid, m: Oid)
    requires HoldsOk(s) && t in s.tasks && s.tasks[t].Live() && m in s.tasks[t].mutexes
    requires m in s.objs && (r == s || r == s.PutO(m, s.objs[m].(kind := NoKind)))
    ensures HoldsOk(Drop(r, t, m))
    ensures forall u :: u in s.tasks && s.tasks[u].Live() ==> m !in Drop(r, t, m).tasks[u].mutexes
  {
    hide Remove, Successor, NoDup;
    var s1 := Drop(r, t, m);
    assert s.objs[m].owner == Some(t);
    forall u | u in s.tasks && s.tasks[u].Live() ensures m !in s1.tasks[u].mutexes {
      assert m in s.tasks[u].mutexes ==> s.objs[m].owner == Some(u);
    }
  }

  lemma DropMutexes(s: State, r: State, t: Tid, m: Oid)
    requires MutexesOk(s, None) && t in s.tasks && s.tasks[t].Live()
    requires m in s.objs && s.objs[m].kind == Mutex && (r == s || r == s.PutO(m, s.objs[m].(kind := NoKind)))
    ensures MutexesOk(Drop(r, t, m), if r == s then Some(m) else None)
  {
    hide Remove, Successor, MutexesOk;
    var s1 := Drop(r, t, m);
    var rel := if r == s then Some(m) else None;
    forall m' | m' in s1.objs && s1.objs[m'].kind == Mutex ensures MutexOk(s1, m', Some(m') == rel) {
      MutexHere(s, m', None);
    }
    MutexesAre(s1, rel);
  }

  lemma DropPi(s: State, t: Tid, m: Oid)
    requires PiOk(s, None) && t in s.tasks
    ensures PiBut(Drop(s, t, m), t, None)
  {
    hide Remove;
    var s1 := Drop(s, t, m);
    forall u | u in s1.tasks && s1.tasks[u].Live() && u != t ensures PiAt(s1, u) {
      assert PiAt(s, u);
      IsMinFrame(s, s1, s.tasks[u].mutexes, s.tasks[u].bPrio, s.tasks[u].prio);
    }
  }

  lemma HeldThere(s: State, t: Tid, m: Oid)
    requires OwnsOk(s, None) && t in s.tasks && s.tasks[t].Live() && m in s.tasks[t].mutexes
    ensures m in s.objs
  {
  }

  lemma DropBase(s: State, t: Tid, m: Oid)
    requires Base(s, None) && t in s.tasks && s.tasks[t].Live() && t != IDLE && m in s.tasks[t].mutexes
    ensures Base(Drop(s, t, m), Some(m))
  {
    hide OwnsOk, WaitsOk, SortedOk, ReadyOk, TicksOk, TasksOk, Remove, Successor;
    DropOwns(s, t, m);
    HeldThere(s, t, m);
    ReadySame(s, Drop(s, t, m));
    TakeLists(s, Drop(s, t, m));
    TakeTasks(s, Drop(s, t, m), t);
  }
}
