/** Blocking and unblocking a task keep the invariant; what they do to the
    inheritance equation of the mutex owner. */
module KernelWaits {
  import opened Options
  import opened Lists
  import opened KernelState
  import opened KernelSteps
  import opened KernelInvariants
  import opened KernelInheritance

  /** Tasks other than t keep their state, and no object gains a waiter but through t. */
  ghost predicate Others(s: State, s1: State, t: Tid) {
    && s1.tasks.Keys == s.tasks.Keys && s1.objs.Keys == s.objs.Keys
    && s1.active == s.active && s1.schedLock == s.schedLock && s1.nesting == s.nesting && s1.now == s.now
    && (forall u :: u in s.tasks && u != t ==> s1.tasks[u].state == s.tasks[u].state)
    && (forall o :: o in s.objs ==> s1.objs[o].kind == s.objs[o].kind && s1.objs[o].policy == s.objs[o].policy)
  }

  ghost predicate Shrinks(s: State, s1: State) {
    s1.objs.Keys == s.objs.Keys &&
    forall o, y :: o in s.objs && y in s1.objs[o].waiters ==> y in s.objs[o].waiters
  }

  // ---- only priorities change ------------------------------------------------

  /** What `task_pri_change` leaves alone. */
  ghost predicate PrioOnly(s: State, s1: State) {
    && s1.tasks.Keys == s.tasks.Keys && s1.objs.Keys == s.objs.Keys
    && (forall u :: u in s.tasks ==> s1.tasks[u] == s.tasks[u].(prio := s1.tasks[u].prio))
    && (forall o :: o in s.objs ==> s1.objs[o] == s.objs[o].(waiters := s1.objs[o].waiters))
    && (forall o, y :: o in s.objs ==> (y in s1.objs[o].waiters <==> y in s.objs[o].waiters))
    && s1.ticks == s.ticks && s1.now == s.now && s1.active == s.active
    && s1.schedLock == s.schedLock && s1.nesting == s.nesting
  }

  lemma SetPrioOnly(s: State, t: Tid, p: nat)
    requires WaitsOk(s) && t in s.tasks && s.tasks[t].Live()
    ensures PrioOnly(s, SetPrio(s, t, p))
  {
    hide InsertByPrio, Remove, SetPrio;
    SetPrioFrame(s, t, p);
    SetPrioObjs(s, t, p);
  }

  lemma PrioOnlyTrans(s: State, s1: State, s2: State)
    requires PrioOnly(s, s1) && PrioOnly(s1, s2)
    ensures PrioOnly(s, s2)
  {
  }

  lemma {:induction false} PriChangeOnly(s: State, t: Tid, p: nat)
    requires WaitsOk(s)
    ensures PrioOnly(s, PriChange(s, t, p))
    decreases if p > s.T(t).prio then 1 else 0,
              if p > s.T(t).prio then |UpTo(s, s.T(t).prio)| else |Below(s, p)|
  {
    if t in s.tasks && s.tasks[t].Live() && s.tasks[t].prio != p {
      hide SetPrio, PrioOnly, WaitsOk, Look;
      var s1 := SetPrio(s, t, p);
      SetPrioFrame(s, t, p);
      SetPrioShrinks(s, t, p);
      SetPrioOnly(s, t, p);
      SetPrioWaits(s, t, p);
      match NextOwner(s, t) {
        case None =>
        case Some(o) =>
          if s1.T(o).prio > p {
            PriChangeOnly(s1, o, p);
            PrioOnlyTrans(s, s1, PriChange(s1, o, p));
          } else if s1.T(o).prio == s.tasks[t].prio && Look(s1, o) != s1.T(o).prio {
            PriChangeOnly(s1, o, Look(s1, o));
            PrioOnlyTrans(s, s1, PriChange(s1, o, Look(s1, o)));
          }
      }
    }
  }

  /** Raising to p moves priorities from worse than p to exactly p. */
  ghost predicate RaisedTo(s: State, s1: State, p: nat) {
    s1.tasks.Keys == s.tasks.Keys &&
    forall u :: u in s.tasks ==> s1.tasks[u].prio == s.tasks[u].prio || (s.tasks[u].prio > p && s1.tasks[u].prio == p)
  }

  lemma {:induction false} PriChangeRaises(s: State, t: Tid, p: nat)
    requires t in s.tasks && s.tasks[t].Live() && p <= s.tasks[t].prio
    ensures RaisedTo(s, PriChange(s, t, p), p) && PriChange(s, t, p).T(t).prio == p
    decreases |Below(s, p)|
  {
    if s.tasks[t].prio != p {
      hide SetPrio, Look;
      var s1 := SetPrio(s, t, p);
      SetPrioFrame(s, t, p);
      SetPrioShrinks(s, t, p);
      match NextOwner(s, t) {
        case None =>
        case Some(o) =>
          if s1.T(o).prio > p && o in s1.tasks && s1.tasks[o].Live() {
            PriChangeRaises(s1, o, p);
          }
      }
    }
  }

  // ---- unblocking --------------------------------------------------------------

  lemma UnblockShape(s: State, t: Tid, why: BlkState, toReady: bool)
    requires WaitsOk(s) && TicksOk(s) && t in s.tasks && s.tasks[t].Waiting()
    ensures
      var s1 := Unblock(s, t, why, toReady);
      var k := s.tasks[t];
      var o := k.blkObj.value;
      && s1.tasks == s.tasks[t := k.(ticking := false, blkState := why, state := if toReady then Rdy else Suspended)]
      && s1.objs == s.objs[o := s.objs[o].(waiters := Remove(s.objs[o].waiters, t))]
      && s1.ticks == Remove(s.ticks, t)
      && s1.now == s.now && s1.active == s.active && s1.schedLock == s.schedLock && s1.nesting == s.nesting
      && (!toReady ==> s1.ready == s.ready && s1.bits == s.bits && s1.highest == s.highest)
  {
    hide Remove, ReadyAdd, WaitsOk;
    WaitTarget(s, t);
    var s1 := TickRm(Unpend(s, t), t);
    var s2 := s1.PutT(t, s1.T(t).(state := if toReady then Rdy else Suspended, blkState := why));
    ReadyAddFrame(s2, t, false);
  }

  lemma UnblockReady(s: State, t: Tid, why: BlkState, toReady: bool)
    requires WaitsOk(s) && TicksOk(s) && ReadyOk(s, None) && TasksOk(s) && t in s.tasks && s.tasks[t].Waiting()
    ensures ReadyOk(Unblock(s, t, why, toReady), None)
  {
    hide Remove;
    var s1 := TickRm(Unpend(s, t), t);
    var s2 := s1.PutT(t, s1.T(t).(state := if toReady then Rdy else Suspended, blkState := why));
    ReadyOut(s, t);
    ReadyFrame(s, s2, t);
    assert TaskOk(t, s.tasks[t]);
    if toReady { ReadyAddOk(s2, t, false); }
  }

  lemma LeaveWaits(s: State, s1: State, t: Tid, o: Oid)
    requires WaitsOk(s) && t in s.tasks && s.tasks[t].blkObj == Some(o) && o in s.objs
    requires t in s1.tasks && !s1.tasks[t].Waiting() && s1.tasks == s.tasks[t := s1.tasks[t]]
    requires s1.objs == s.objs[o := s.objs[o].(waiters := Remove(s.objs[o].waiters, t))]
    ensures WaitsOk(s1)
  {
    hide Remove, NoDup;
    LeaveListed(s, s1, t, o);
    forall u | u in s1.tasks && s1.tasks[u].Waiting()
      ensures s1.tasks[u].blkObj.Some? && s1.tasks[u].blkObj.value in s1.objs && u in s1.objs[s1.tasks[u].blkObj.value].waiters
    {
      assert u != t && s1.tasks[u] == s.tasks[u];
    }
  }

  /** t has left the one list it was on. */
  lemma LeaveListed(s: State, s1: State, t: Tid, o: Oid)
    requires WaitsOk(s) && t in s.tasks && s.tasks[t].blkObj == Some(o) && o in s.objs
    requires t in s1.tasks && s1.tasks == s.tasks[t := s1.tasks[t]]
    requires s1.objs == s.objs[o := s.objs[o].(waiters := Remove(s.objs[o].waiters, t))]
    ensures forall o' :: o' in s1.objs ==> NoDup(s1.objs[o'].waiters)
    ensures forall o', u :: o' in s1.objs && u in s1.objs[o'].waiters ==> u in s1.tasks && s1.tasks[u].Waiting() && s1.tasks[u].blkObj == Some(o')
  {
    hide Remove, NoDup;
    forall o', u | o' in s1.objs && u in s1.objs[o'].waiters
      ensures u in s1.tasks && s1.tasks[u].Waiting() && s1.tasks[u].blkObj == Some(o')
    {
      assert u in s.objs[o'].waiters && s.tasks[u].blkObj == Some(o');
      assert u != t;
    }
  }

  lemma LeaveSorted(s: State, s1: State, t: Tid, o: Oid)
    requires SortedOk(s) && o in s.objs
    requires forall u :: s1.T(u).prio == s.T(u).prio
    requires s1.objs == s.objs[o := s.objs[o].(waiters := Remove(s.objs[o].waiters, t))]
    ensures SortedOk(s1)
  {
    hide Remove;
    forall o' | o' in s1.objs && s1.objs[o'].policy == ByPrio ensures Sorted(s1, s1.objs[o'].waiters) {
      assert Sorted(s, s.objs[o'].waiters);
      if o' == o { RemoveSorted(s, s.objs[o].waiters, t); }
      SortedFrame(s, s1, s1.objs[o'].waiters);
    }
  }

  lemma LeaveTicks(s: State, s1: State, t: Tid)
    requires TicksOk(s) && t in s.tasks && t in s1.tasks && s1.tasks == s.tasks[t := s1.tasks[t]]
    requires s1.ticks == Remove(s.ticks, t) && !s1.tasks[t].ticking && !s1.tasks[t].Sleeping()
    ensures TicksOk(s1)
  {
    hide Remove;
  }

  lemma UnblockOwns(s: State, t: Tid, why: BlkState, toReady: bool, rel: Option<Oid>)
    requires WaitsOk(s) && TicksOk(s) && OwnsOk(s, rel) && t in s.tasks && s.tasks[t].Waiting()
    ensures OwnsOk(Unblock(s, t, why, toReady), rel)
  {
    hide Unblock, Remove, OwnsOk, WaitsOk, TicksOk;
    WaitTarget(s, t);
    UnblockShape(s, t, why, toReady);
    OwnsFrame(s, Unblock(s, t, why, toReady), rel);
  }

  lemma UnblockTasks(s: State, t: Tid, why: BlkState, toReady: bool)
    requires WaitsOk(s) && TicksOk(s) && TasksOk(s) && t in s.tasks && s.tasks[t].Waiting()
    requires !toReady ==> s.tasks[t].state == PendSuspended
    ensures TasksOk(Unblock(s, t, why, toReady))
  {
    hide Unblock, Remove, TicksOk, WaitsOk;
    UnblockShape(s, t, why, toReady);
    assert TaskOk(t, s.tasks[t]);
  }

  lemma UnblockOthers(s: State, t: Tid, why: BlkState, toReady: bool)
    requires WaitsOk(s) && TicksOk(s) && t in s.tasks && s.tasks[t].Waiting()
    ensures Others(s, Unblock(s, t, why, toReady), t) && Shrinks(s, Unblock(s, t, why, toReady))
  {
    hide Unblock, Remove, TicksOk, WaitsOk;
    WaitTarget(s, t);
    UnblockShape(s, t, why, toReady);
  }

  lemma UnblockLists(s: State, t: Tid, why: BlkState, toReady: bool)
    requires WaitsOk(s) && SortedOk(s) && TicksOk(s) && t in s.tasks && s.tasks[t].Waiting()
    ensures WaitsOk(Unblock(s, t, why, toReady)) && SortedOk(Unblock(s, t, why, toReady)) && TicksOk(Unblock(s, t, why, toReady))
  {
    UnblockShape(s, t, why, toReady);
    var s1 := Unblock(s, t, why, toReady);
    var o := s.tasks[t].blkObj.value;
    assert o in s.objs;
    hide Unblock, Remove, TicksOk, WaitsOk, SortedOk;
    LeaveWaits(s, s1, t, o);
    LeaveSorted(s, s1, t, o);
    LeaveTicks(s, s1, t);
  }

  lemma UnblockBase(s: State, t: Tid, why: BlkState, toReady: bool, rel: Option<Oid>)
    requires Base(s, rel) && t in s.tasks && s.tasks[t].Waiting()
    requires !toReady ==> s.tasks[t].state == PendSuspended
    ensures Base(Unblock(s, t, why, toReady), rel)
    ensures Others(s, Unblock(s, t, why, toReady), t) && Shrinks(s, Unblock(s, t, why, toReady))
  {
    hide ReadyOk, SortedOk, TicksOk, OwnsOk, TasksOk, WaitsOk, Unblock, Others, Shrinks;
    UnblockReady(s, t, why, toReady);
    UnblockOwns(s, t, why, toReady, rel);
    UnblockTasks(s, t, why, toReady);
    UnblockOthers(s, t, why, toReady);
    UnblockLists(s, t, why, toReady);
  }

  /** s1 is s with t off the wait list of its object, priorities and held mutexes as before. */
  ghost predicate Left(s: State, s1: State, t: Tid) {
    && t in s.tasks && s.tasks[t].Waiting() && s.tasks[t].blkObj.Some?
    && var o := s.tasks[t].blkObj.value;
    && o in s.objs && s1.objs == s.objs[o := s.objs[o].(waiters := Remove(s.objs[o].waiters, t))]
    && s1.tasks.Keys == s.tasks.Keys
    && (forall u :: s1.T(u).prio == s.T(u).prio && s1.T(u).bPrio == s.T(u).bPrio && s1.T(u).mutexes == s.T(u).mutexes)
    && (forall u :: u in s1.tasks && s1.tasks[u].Live() ==> s.tasks[u].Live())
  }

  /** Owners that do not hold the object t waited for see no change. */
  lemma LeavePiElsewhere(s: State, s1: State, t: Tid, u: Tid)
    requires Left(s, s1, t) && PiAt(s, u) && s.tasks[t].blkObj.value !in s.T(u).mutexes
    ensures PiAt(s1, u)
  {
    hide Remove;
    IsMinFrame(s, s1, s.T(u).mutexes, s.T(u).bPrio, s.T(u).prio);
  }

  /** The owner of the mutex t waited for only loses priority if it ran at t's. */
  lemma LeavePiOwner(s: State, s1: State, t: Tid, u: Tid)
    requires Left(s, s1, t) && Base(s, None)
    requires u in s.tasks && s.tasks[u].Live() && PiAt(s, u) && s.tasks[t].blkObj.value in s.tasks[u].mutexes
    ensures s.tasks[u].prio <= s.tasks[t].prio
    ensures s.tasks[u].prio < s.tasks[t].prio ==> PiAt(s1, u)
  {
    hide Base, Remove, IsMin;
    var m := s.tasks[t].blkObj.value;
    HeldSorted(s, u, m, t);
    LeaveFirst(s, s1, t, m);
    LeaveMin(s, s1, s.tasks[u].mutexes, s.tasks[u].bPrio, s.tasks[u].prio, m, s.tasks[t].prio);
  }

  /** Only the first waiter of m changed, for the worse, and it did not decide. */
  lemma FirstGrows(s: State, s1: State, ms: seq<Oid>, acc: nat, v: nat, m: Oid)
    requires IsMin(s, ms, acc, v)
    requires forall m' :: m' != m ==> FirstPrio(s1, m') == FirstPrio(s, m')
    requires FirstPrio(s, m) <= FirstPrio(s1, m)
    requires FirstPrio(s1, m) == FirstPrio(s, m) || v < FirstPrio(s, m)
    ensures IsMin(s1, ms, acc, v)
  {
  }

  /** t leaves the sorted wait list of m. */
  lemma LeaveFirst(s: State, s1: State, t: Tid, m: Oid)
    requires m in s.objs && Sorted(s, s.objs[m].waiters) && t in s.objs[m].waiters
    requires forall u :: u in s.objs[m].waiters ==> s.T(u).prio <= PRI_MAX
    requires forall u :: s1.T(u).prio == s.T(u).prio
    requires s1.objs == s.objs[m := s.objs[m].(waiters := Remove(s.objs[m].waiters, t))]
    ensures FirstPrio(s, m) <= s.T(t).prio && FirstPrio(s, m) <= FirstPrio(s1, m)
    ensures FirstPrio(s, m) < s.T(t).prio ==> FirstPrio(s1, m) == FirstPrio(s, m)
    ensures forall m' :: m' != m ==> FirstPrio(s1, m') == FirstPrio(s, m')
  {
    hide Remove;
    var q := s.objs[m].waiters;
    var i :| 0 <= i < |q| && q[i] == t;
    assert s.T(q[0]).prio <= s.T(q[i]).prio;
    var r := s1.objs[m].waiters;
    if r != [] {
      assert r[0] in q;
      var j :| 0 <= j < |q| && q[j] == r[0];
      assert s.T(q[0]).prio <= s.T(q[j]).prio;
    } else {
      assert q[0] in q;
    }
  }

  lemma HeldSorted(s: State, u: Tid, m: Oid, t: Tid)
    requires Base(s, None) && u in s.tasks && s.tasks[u].Live() && m in s.tasks[u].mutexes
    requires t in s.tasks && s.tasks[t].Waiting() && s.tasks[t].blkObj == Some(m)
    ensures m in s.objs && Sorted(s, s.objs[m].waiters) && t in s.objs[m].waiters
    ensures forall w :: w in s.objs[m].waiters ==> s.T(w).prio <= PRI_MAX
  {
    hide ReadyOk, TicksOk, Sorted, NoDup;
    assert MutexOk(s, m, false);
    forall w | w in s.objs[m].waiters ensures s.T(w).prio <= PRI_MAX {
      assert TaskOk(w, s.tasks[w]);
    }
  }

  lemma LeaveMin(s: State, s1: State, ms: seq<Oid>, acc: nat, v: nat, m: Oid, p: nat)
    requires IsMin(s, ms, acc, v) && m in ms
    requires forall m' :: m' != m ==> FirstPrio(s1, m') == FirstPrio(s, m')
    requires FirstPrio(s, m) <= p && FirstPrio(s, m) <= FirstPrio(s1, m)
    requires FirstPrio(s, m) < p ==> FirstPrio(s1, m) == FirstPrio(s, m)
    ensures v <= p && (v < p ==> IsMin(s1, ms, acc, v))
  {
    if v < p {
      FirstGrows(s, s1, ms, acc, v, m);
    }
  }

  /** After t left, only the owner of the mutex it waited for may have to be looked at again. */
  lemma LeavePiBut(s: State, s1: State, t: Tid, x: Option<Tid>)
    requires Base(s, None) && Left(s, s1, t) && PiOk(s, x)
    requires x == None || (x == Some(t) && !s1.T(t).Live())
    ensures
      match NextOwner(s, t)
      case None => PiOk(s1, None)
      case Some(o) =>
        && PiBut(s1, o, None) && o in s.tasks && s.tasks[o].Live() && o != IDLE && o != t
        && (s.T(o).prio != s.T(t).prio ==> PiOk(s1, None))
  {
    hide ReadyOk, TicksOk, SortedOk, Remove, IsMin;
    var m := s.tasks[t].blkObj.value;
    assert m in s.objs && t in s.objs[m].waiters;
    assert s.objs[m].kind == Mutex ==> MutexOk(s, m, false);
    forall u | u in s1.tasks && s1.tasks[u].Live() && Some(u) != NextOwner(s, t) ensures PiAt(s1, u) {
      assert s.tasks[u].Live() && PiAt(s, u);
      assert m !in s.tasks[u].mutexes;
      LeavePiElsewhere(s, s1, t, u);
    }
    if NextOwner(s, t).Some? {
      var o := NextOwner(s, t).value;
      assert PiAt(s, o);
      LeavePiOwner(s, s1, t, o);
    }
  }

  // ---- fields of one task --------------------------------------------------------

  /** k1 differs from k in nothing the lists depend on. */
  predicate SameLists(k: Task, k1: Task) {
    && k1.prio == k.prio && k1.mutexes == k.mutexes && k1.ticking == k.ticking
    && (k1.Waiting() <==> k.Waiting()) && (k.Waiting() ==> k1.blkObj == k.blkObj)
    && (k1.Sleeping() <==> k.Sleeping()) && (k1.state == Rdy <==> k.state == Rdy) && (k1.Live() <==> k.Live())
  }

  lemma FieldsWaits(s: State, t: Tid, k1: Task)
    requires WaitsOk(s) && SortedOk(s) && t in s.tasks && SameLists(s.tasks[t], k1)
    ensures WaitsOk(s.PutT(t, k1)) && SortedOk(s.PutT(t, k1))
  {
    var s1 := s.PutT(t, k1);
    forall o | o in s1.objs && s1.objs[o].policy == ByPrio ensures Sorted(s1, s1.objs[o].waiters) {
      hide WaitsOk;
      assert Sorted(s, s.objs[o].waiters);
    }
  }

  lemma FieldsBase(s: State, t: Tid, k1: Task, rel: Option<Oid>)
    requires Base(s, rel) && t in s.tasks && SameLists(s.tasks[t], k1) && TaskOk(t, k1)
    ensures Base(s.PutT(t, k1), rel)
  {
    hide WaitsOk, SortedOk, OwnsOk, ReadyOk;
    FieldsWaits(s, t, k1);
    OwnsFrame(s, s.PutT(t, k1), rel);
    ReadySame(s, s.PutT(t, k1));
  }

  lemma TaskHere(s: State, t: Tid, rel: Option<Oid>)
    requires Base(s, rel) && t in s.tasks
    ensures TaskOk(t, s.tasks[t]) && TaskOk(t, s.tasks[t].(blkObj := None))
  {
    hide WaitsOk, SortedOk, OwnsOk, ReadyOk, TicksOk;
  }

  /** `blk_obj` of a task that does not wait is not part of the invariant. */
  lemma ClearBlkOk(s: State, t: Tid, rel: Option<Oid>, x: Option<Tid>)
    requires Base(s, rel) && PiOk(s, x) && t in s.tasks && !s.tasks[t].Waiting()
    ensures Base(ClearBlk(s, t), rel) && PiOk(ClearBlk(s, t), x)
  {
    hide Base, PiOk, TaskOk;
    TaskHere(s, t, rel);
    FieldsBase(s, t, s.tasks[t].(blkObj := None), rel);
    PiSame(s, ClearBlk(s, t), x);
  }

  /** Tasks and wait lists look the same to the inheritance equation. */
  lemma PiSame(s: State, s1: State, x: Option<Tid>)
    requires PiOk(s, x)
    requires s1.tasks.Keys == s.tasks.Keys && s1.objs.Keys == s.objs.Keys
    requires forall u :: u in s.tasks ==>
      && s1.tasks[u].prio == s.tasks[u].prio && s1.tasks[u].bPrio == s.tasks[u].bPrio
      && s1.tasks[u].mutexes == s.tasks[u].mutexes && (s1.tasks[u].Live() ==> s.tasks[u].Live())
    requires forall o :: o in s.objs ==> s1.objs[o].waiters == s.objs[o].waiters
    ensures PiOk(s1, x)
  {
    forall u | u in s1.tasks && s1.tasks[u].Live() && Some(u) != x ensures PiAt(s1, u) {
      assert PiAt(s, u);
      IsMinFrame(s, s1, s.tasks[u].mutexes, s.tasks[u].bPrio, s.tasks[u].prio);
    }
  }
}
