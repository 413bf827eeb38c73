/** The remaining API routines, time, interrupts, and whole runs. */
module KernelRun {
  import opened Options
  import opened Lists
  import opened KernelState
  import opened KernelSteps
  import opened KernelInvariants
  import opened KernelInheritance
  import opened KernelWaits
  import opened KernelMutexes
  import opened KernelHandOver
  import opened KernelBlock
  import opened KernelCalls
  import opened KernelTasks
  import opened KernelDeletion

  // ---- state changes of one task that waits for nothing -----------------------------

  /** t, not waiting before or after, changed state; the queues follow. */
  ghost predicate Switched(s: State, s1: State, t: Tid) {
    && t in s.tasks && t in s1.tasks && s1.tasks == s.tasks[t := s1.tasks[t]]
    && var k, k1 := s.tasks[t], s1.tasks[t];
    && !k.Waiting() && !k1.Waiting() && k.Live() && k1.Live()
    && k1.prio == k.prio && k1.bPrio == k.bPrio && k1.mutexes == k.mutexes && TaskOk(t, k1)
    && s1.objs == s.objs && s1.active == s.active && s1.schedLock == s.schedLock && s1.nesting == s.nesting
  }

  lemma SwitchedBase(s: State, s1: State, t: Tid)
    requires Base(s, None) && PiOk(s, None) && NoneWaits(s) && Switched(s, s1, t)
    requires ReadyOk(s1, None) && TicksOk(s1)
    ensures Safe(s1)
  {
    hide WaitsOk, SortedOk, OwnsOk, ReadyOk, TicksOk;
    SwitchedLists(s, s1, t);
    OwnsFrame(s, s1, None);
    PiSame(s, s1, None);
  }

  lemma SwitchedLists(s: State, s1: State, t: Tid)
    requires WaitsOk(s) && SortedOk(s) && Switched(s, s1, t)
    ensures WaitsOk(s1) && SortedOk(s1)
  {
    assert SortedOk(s1) by {
      hide WaitsOk;
      forall o | o in s1.objs && s1.objs[o].policy == ByPrio ensures Sorted(s1, s1.objs[o].waiters) {
        assert Sorted(s, s.objs[o].waiters);
      }
    }
    hide SortedOk;
  }

  /** t was not ready and becomes ready, leaving the tick list if it was on it. */
  lemma BecomeReady(s: State, s1: State, t: Tid, k1: Task)
    requires Base(s, None) && PiOk(s, None) && NoneWaits(s)
    requires t in s.tasks && s.tasks[t].state in {Suspended, Sleep, SleepSuspended} && k1.state == Rdy && !k1.ticking
    requires k1.prio == s.tasks[t].prio && k1.bPrio == s.tasks[t].bPrio && k1.mutexes == s.tasks[t].mutexes
    requires k1.suspends <= SUSPEND_MAX
    requires s1 == ReadyAdd(s.PutT(t, k1).(ticks := Remove(s.ticks, t)), t, false)
    ensures Safe(s1) && Steady(s, s1)
  {
    hide Remove, NoneWaits, PiOk, OwnsOk, WaitsOk, SortedOk, ReadyOk, TicksOk, ReadyAdd;
    var a := s.PutT(t, k1).(ticks := Remove(s.ticks, t));
    IdleTask(s, t);
    ReadyAddFrame(a, t, false);
    JoinReady(s, a, t);
    LeaveTicks(s, s1, t);
    hide Base;
    SwitchedBase(s, s1, t);
  }

  lemma JoinReady(s: State, a: State, t: Tid)
    requires ReadyOk(s, None) && t in s.tasks && s.tasks[t].state != Rdy
    requires t in a.tasks && a.tasks == s.tasks[t := a.tasks[t]] && a.tasks[t].state == Rdy && a.tasks[t].prio < PRI_MAX
    requires a.ready == s.ready && a.bits == s.bits && a.highest == s.highest
    ensures ReadyOk(ReadyAdd(a, t, false), None)
  {
    hide ReadyOk, ReadyAdd;
    ReadyOut(s, t);
    ReadyFrame(s, a, t);
    ReadyAddOk(a, t, false);
  }

  /** The running task, or any ready one, leaves the ready queue. */
  lemma LeaveReady(s: State, s1: State, t: Tid)
    requires Base(s, None) && PiOk(s, None) && NoneWaits(s)
    requires t != IDLE && Switched(s, s1, t) && s.tasks[t].state == Rdy && s1.tasks[t].state != Rdy
    requires s1.ready == ReadyRm(s, t).ready && s1.bits == ReadyRm(s, t).bits && s1.highest == ReadyRm(s, t).highest
    requires TicksOk(s1)
    ensures Safe(s1)
  {
    hide NoneWaits, PiOk, OwnsOk, WaitsOk, SortedOk, TicksOk;
    ReadyRmOk(s, t);
    ReadyRmFrame(s, t);
    hide ReadyRm;
    ReadyFrame(ReadyRm(s, t), s1, t);
    hide ReadyOk, TasksOk, Base;
    SwitchedBase(s, s1, t);
  }

  // ---- krhino_task_suspend, krhino_task_resume ------------------------------------------

  lemma IdleTask(s: State, t: Tid)
    requires Base(s, None) && t in s.tasks
    ensures TaskOk(t, s.tasks[t])
  {
  }

  lemma FieldsSafe(s: State, t: Tid, k1: Task)
    requires Base(s, None) && PiOk(s, None) && NoneWaits(s)
    requires t in s.tasks && SameLists(s.tasks[t], k1) && TaskOk(t, k1) && k1.bPrio == s.tasks[t].bPrio
    ensures Safe(s.PutT(t, k1)) && Steady(s, s.PutT(t, k1))
  {
    hide Base;
    FieldsBase(s, t, k1, None);
    PiSame(s, s.PutT(t, k1), None);
  }

  lemma ActiveThere(s: State)
    requires Inv(s)
    ensures s.active in s.tasks && Safe(s) && RunnerOk(s)
  {
    hide Base, PiOk, NoneWaits;
  }

  /** A change of fields the lists do not see, followed by scheduling. */
  lemma FieldsInv(s: State, t: Tid, k1: Task)
    requires Inv(s) && t in s.tasks && SameLists(s.tasks[t], k1) && TaskOk(t, k1) && k1.bPrio == s.tasks[t].bPrio
    ensures Inv(CoreSched(s.PutT(t, k1)))
  {
    ActiveThere(s);
    hide Base, PiOk, NoneWaits, CoreSched, Steady, ActiveOk;
    FieldsSafe(s, t, k1);
    hide Safe;
    SchedInv(s.PutT(t, k1));
  }

  lemma StillTicks(s: State, s1: State, t: Tid)
    requires Base(s, None) && t in s.tasks && s.tasks[t].state == Rdy
    requires t in s1.tasks && s1.tasks == s.tasks[t := s1.tasks[t]] && s1.ticks == s.ticks
    requires s1.tasks[t].ticking == s.tasks[t].ticking && !s1.tasks[t].Sleeping()
    ensures TicksOk(s1)
  {
    hide WaitsOk, SortedOk, OwnsOk, ReadyOk, TasksOk;
    EnterTicks(s, s1, t);
  }

  lemma SuspendReady(s: State, t: Tid)
    requires Inv(s) && t in s.tasks && s.tasks[t].state == Rdy && t != IDLE && !(t == s.active && s.schedLock > 0)
    ensures Inv(CoreSched(ReadyRm(s.PutT(t, s.tasks[t].(suspends := 1, state := Suspended)), t)))
  {
    hide Base, PiOk, NoneWaits, ReadyRm, CoreSched;
    var k := s.tasks[t].(suspends := 1, state := Suspended);
    var s1 := ReadyRm(s.PutT(t, k), t);
    IdleTask(s, t);
    ReadyRmFrame(s.PutT(t, k), t);
    ReadyRmSame(s, s.PutT(t, k), t);
    StillTicks(s, s1, t);
    LeaveReady(s, s1, t);
    hide Safe;
    SchedInv(s1);
  }

  lemma TaskSuspendInv(s: State, t: Tid)
    requires Inv(s)
    ensures Inv(TaskSuspend(s, t).0)
  {
    var k := s.T(t);
    hide Inv, CoreSched, ReadyRm;
    if t in s.tasks && k.prio != IDLE_PRI && !(t == s.active && s.schedLock > 0) {
      InvTask(s, t);
      match k.state {
        case Rdy => SuspendReady(s, t);
        case Sleep => FieldsInv(s, t, k.(suspends := 1, state := SleepSuspended));
        case Pend => FieldsInv(s, t, k.(suspends := 1, state := PendSuspended));
        case Suspended | SleepSuspended | PendSuspended =>
          if k.suspends != SUSPEND_MAX { FieldsInv(s, t, k.(suspends := k.suspends + 1)); }
        case Deleted =>
      }
    }
  }

  lemma InvTask(s: State, t: Tid)
    requires Inv(s) && t in s.tasks
    ensures TaskOk(t, s.tasks[t]) && s.active in s.tasks
    ensures s.tasks[t].state in {Rdy, Suspended, Pend, PendSuspended} && !s.tasks[t].Waiting() ==> !s.tasks[t].ticking
    ensures (t == s.active ==> s.tasks[t].state == Rdy || (s.nesting > 0 && s.schedLock == 0))
  {
    hide WaitsOk, SortedOk, OwnsOk, ReadyOk, PiOk, NoneWaits;
  }

  lemma TaskResumeInv(s: State, t: Tid)
    requires Inv(s)
    ensures Inv(TaskResume(s, t).0)
  {
    var k := s.T(t);
    hide Inv, CoreSched, ReadyAdd;
    if t in s.tasks && k.state in {Suspended, SleepSuspended, PendSuspended} {
      InvTask(s, t);
      var n := (k.suspends - 1) % (SUSPEND_MAX + 1);
      if n > 0 {
        FieldsInv(s, t, k.(suspends := n));
      } else if k.state == Suspended {
        ReadyInv(s, t, k.(suspends := 0, state := Rdy));
      } else {
        FieldsInv(s, t, k.(suspends := 0, state := if k.state == SleepSuspended then Sleep else Pend));
      }
    }
  }

  /** t becomes ready, then scheduling. */
  lemma ReadyInv(s: State, t: Tid, k1: Task)
    requires Inv(s)
    requires t in s.tasks && s.tasks[t].state in {Suspended, Sleep, SleepSuspended} && k1.state == Rdy && !k1.ticking
    requires k1.prio == s.tasks[t].prio && k1.bPrio == s.tasks[t].bPrio && k1.mutexes == s.tasks[t].mutexes
    requires k1.suspends <= SUSPEND_MAX
    ensures Inv(CoreSched(ReadyAdd(s.PutT(t, k1).(ticks := Remove(s.ticks, t)), t, false)))
    ensures s.tasks[t].state == Suspended ==> Remove(s.ticks, t) == s.ticks
  {
    hide Inv, Base, PiOk, NoneWaits, ReadyAdd, Remove, CoreSched, ActiveOk, Steady, Safe, TaskOk;
    ActiveThere(s);
    InvTask(s, t);
    TickingIn(s, t);
    RemoveAbsent(s.ticks, t);
    InvParts(s);
    BecomeReady(s, ReadyAdd(s.PutT(t, k1).(ticks := Remove(s.ticks, t)), t, false), t, k1);
    SteadyRuns(s, ReadyAdd(s.PutT(t, k1).(ticks := Remove(s.ticks, t)), t, false));
    SchedInv(ReadyAdd(s.PutT(t, k1).(ticks := Remove(s.ticks, t)), t, false));
  }

  lemma RemoveAbsent(q: seq<Tid>, t: Tid)
    ensures t !in q ==> Remove(q, t) == q
  {
  }

  lemma InvParts(s: State)
    requires Inv(s)
    ensures Base(s, None) && PiOk(s, None) && NoneWaits(s) && ActiveOk(s)
  {
  }

  lemma TickingIn(s: State, t: Tid)
    requires Inv(s) && t in s.tasks
    ensures s.tasks[t].ticking <==> t in s.ticks
  {
    hide WaitsOk, SortedOk, OwnsOk, ReadyOk, PiOk, NoneWaits;
  }

  // ---- krhino_task_sleep, krhino_task_yield, krhino_task_wait_abort ------------------------

  lemma SleepTicks(s: State, s1: State, t: Tid, ticks: nat)
    requires Base(s, None) && t in s.tasks && s.tasks[t].state == Rdy
    requires t in s1.tasks && s1.tasks == s.tasks[t := s1.tasks[t]] && s1.tasks[t].state == Sleep && s1.tasks[t].ticking
    requires s1.ticks == InsertByTick(s, s.ticks, t, ticks)
    ensures TicksOk(s1)
  {
    hide WaitsOk, SortedOk, OwnsOk, ReadyOk, TasksOk, InsertByTick;
    assert t !in s.ticks;
    EnterTicks(s, s1, t);
  }

  /** The state in which the running task goes to sleep. */
  function Drowsy(s: State, ticks: nat): State {
    TickInsert(s.PutT(s.active, s.T(s.active).(state := Sleep)), s.active, ticks)
  }

  lemma DrowsyShape(s: State, ticks: nat)
    requires s.active in s.tasks && ticks > 0
    ensures
      var s1, t := Drowsy(s, ticks), s.active;
      && s1.tasks == s.tasks[t := s.tasks[t].(state := Sleep, tickMatch := (s.now + ticks) % TICK_SPAN, ticking := true)]
      && s1 == s.(tasks := s1.tasks, ticks := InsertByTick(s, s.ticks, t, ticks))
  {
    hide InsertByTick, Remaining;
    var s1 := s.PutT(s.active, s.T(s.active).(state := Sleep));
    forall u ensures Remaining(s1, u) == Remaining(s, u) { RemainingFrame(s, s1, u); }
    TickFrame(s, s1, s.ticks, s.active, ticks);
  }

  lemma SleepSafe(s: State, ticks: nat)
    requires Inv(s) && s.active != IDLE && s.nesting == 0 && ticks > 0
    ensures Safe(ReadyRm(Drowsy(s, ticks), s.active))
  {
    ActiveThere(s);
    InvTask(s, s.active);
    hide Base, PiOk, NoneWaits, ReadyRm, ActiveOk, InsertByTick, Drowsy;
    var t := s.active;
    var s0 := Drowsy(s, ticks);
    var s1 := ReadyRm(s0, t);
    DrowsyShape(s, ticks);
    ReadyRmFrame(s0, t);
    ReadyRmSame(s, s0, t);
    SleepTicks(s, s1, t, ticks);
    LeaveReady(s, s1, t);
  }

  lemma TaskSleepInv(s: State, ticks: nat)
    requires Inv(s) && Enabled(s, SleepFor(ticks))
    ensures Inv(TaskSleep(s, ticks).0)
  {
    if ticks != 0 && s.nesting == 0 && s.schedLock == 0 {
      hide Inv, Safe, ReadyRm, CoreSched, InsertByTick, TickInsert;
      var s1 := ReadyRm(Drowsy(s, ticks), s.active);
      ActiveThere(s);
      SleepSafe(s, ticks);
      DrowsyShape(s, ticks);
      ReadyRmFrame(Drowsy(s, ticks), s.active);
      SchedInv(s1);
    }
  }

  lemma RotatedNoDup(q: seq<Tid>)
    requires q != [] && NoDup(q)
    ensures NoDup(q[1..] + [q[0]]) && forall y :: y in q[1..] + [q[0]] <==> y in q
  {
    NoDupTail(q);
    NoDupAppend(q[1..], q[0]);
    assert q == [q[0]] + q[1..];
  }

  lemma RotateReady(s: State, p: nat)
    requires ReadyOk(s, None)
    ensures ReadyOk(Rotate(s, p), None)
  {
    var s1 := Rotate(s, p);
    if p < |s.ready| && s.ready[p] != [] {
      assert ListOk(s, p, None);
      RotatedNoDup(s.ready[p]);
      forall q | 0 <= q < PRI_MAX ensures ListOk(s1, q, None) {
        assert ListOk(s, q, None);
      }
    }
  }

  lemma RotateSafe(s: State, p: nat)
    requires Inv(s)
    ensures Safe(Rotate(s, p)) && RunnerOk(Rotate(s, p))
  {
    ActiveThere(s);
    hide ReadyOk, OwnsOk, WaitsOk, SortedOk, TicksOk, TasksOk, ActiveOk, PiOk, NoneWaits, Rotate;
    var s1 := Rotate(s, p);
    RotateReady(s, p);
    RotateFrame(s, p);
    TakeLists(s, s1);
    OwnsFrame(s, s1, None);
    TasksSame(s, s1);
    PiSame(s, s1, None);
    SameObjs(s, s1);
  }

  lemma TasksSame(s: State, s1: State)
    requires TasksOk(s) && TicksOk(s) && s1.tasks == s.tasks && s1.ticks == s.ticks && s1.active == s.active
    ensures TasksOk(s1) && TicksOk(s1)
  {
  }

  lemma RotateFrame(s: State, p: nat)
    ensures Rotate(s, p) == s.(ready := Rotate(s, p).ready)
  {
  }

  lemma TaskYieldInv(s: State)
    requires Inv(s)
    ensures Inv(TaskYield(s).0)
  {
    hide Base, PiOk, NoneWaits, CoreSched, ActiveOk, Rotate, Safe;
    RotateSafe(s, s.T(s.active).prio);
    SchedInv(Rotate(s, s.T(s.active).prio));
  }

  lemma SteadyRuns(s: State, s1: State)
    requires Steady(s, s1) && ActiveOk(s)
    ensures RunnerOk(s1)
  {
  }

  /** A timed-out or aborted wait. */
  lemma EndWaitSafe(s: State, t: Tid, why: BlkState, toReady: bool)
    requires Safe(s) && t in s.tasks && s.tasks[t].Waiting()
    requires !toReady ==> s.tasks[t].state == PendSuspended
    ensures
      var s1 := ClearBlk(Reset(Unblock(s, t, why, toReady), t), t);
      Safe(s1) && Steady(s, s1)
  {
    hide Base, PiOk, Calm, Steady, NoneWaits;
    EndWait(s, t, why, toReady);
    hide Unblock, Reset, ClearBlk;
    var s1 := ClearBlk(Reset(Unblock(s, t, why, toReady), t), t);
    CalmSteady(s, s1, t);
    SteadyNoneWaits(s, s1);
  }

  lemma AbortSleep(s: State, t: Tid)
    requires Inv(s) && t in s.tasks && s.tasks[t].Sleeping()
    ensures
      var s1 := TickRm(s, t);
      Inv(CoreSched(ReadyAdd(s1.PutT(t, s1.T(t).(state := Rdy, blkState := BlkAbort)), t, false)))
  {
    hide Inv, CoreSched, ReadyAdd, Safe, Remove, Steady;
    InvTask(s, t);
    TickingIn(s, t);
    var k1 := s.tasks[t].(ticking := false, state := Rdy, blkState := BlkAbort);
    ReadyInv(s, t, k1);
    assert TickRm(s, t).PutT(t, TickRm(s, t).T(t).(state := Rdy, blkState := BlkAbort))
        == s.PutT(t, k1).(ticks := Remove(s.ticks, t));
  }

  lemma AbortPend(s: State, t: Tid)
    requires Inv(s) && t in s.tasks && s.tasks[t].Waiting()
    ensures Inv(CoreSched(ClearBlk(Reset(Unblock(s, t, BlkAbort, true), t), t)))
  {
    hide Inv, CoreSched, Safe, Steady, Unblock, Reset, ClearBlk;
    ActiveThere(s);
    InvActive(s);
    EndWaitSafe(s, t, BlkAbort, true);
    SteadyRuns(s, ClearBlk(Reset(Unblock(s, t, BlkAbort, true), t), t));
    SchedInv(ClearBlk(Reset(Unblock(s, t, BlkAbort, true), t), t));
  }

  lemma TaskWaitAbortInv(s: State, t: Tid)
    requires Inv(s)
    ensures Inv(TaskWaitAbort(s, t).0)
  {
    hide Inv, CoreSched, ReadyAdd, Remove, Unblock, Reset, ClearBlk, TickRm;
    if s.nesting == 0 && t in s.tasks {
      var k := s.tasks[t];
      InvTask(s, t);
      match k.state {
        case Rdy => ActiveThere(s); SchedInv(s);
        case Suspended => ReadyInv(s, t, k.(state := Rdy));
        case Sleep | SleepSuspended => AbortSleep(s, t);
        case Pend | PendSuspended => AbortPend(s, t);
        case Deleted =>
      }
    }
  }

  lemma InvActive(s: State)
    requires Inv(s)
    ensures ActiveOk(s)
  {
  }

  // ---- krhino_task_del ---------------------------------------------------------------------

  lemma PiExcept(s: State, t: Tid)
    requires PiOk(s, None)
    ensures PiOk(s, Some(t))
  {
    hide PiAt;
  }

  /** A live task is deleted, up to scheduling. */
  lemma DelLive(s: State, t: Tid)
    requires Inv(s) && s.nesting == 0 && t in s.tasks && s.tasks[t].prio != IDLE_PRI && !(t == s.active && s.schedLock > 0) && s.tasks[t].Live()
    ensures
      var s2 := Bury(FreeMutexes(s, t, s.tasks[t].mutexes), t);
      && Base(s2, None) && PiOk(s2, None) && NoneWaits(s2) && RunnerOk(s2) && t in s2.tasks && !s2.tasks[t].Live()
      && s2.objs.Keys == s.objs.Keys && forall o :: o in s.objs ==> s2.objs[o].kind == s.objs[o].kind
  {
    InvTask(s, t);
    hide Base, PiOk, NoneWaits, FreeMutexes, Bury, Steady, ActiveOk, BuryFrame;
    var s1 := FreeMutexes(s, t, s.tasks[t].mutexes);
    PiExcept(s, t);
    FreeAll(s, t, s.tasks[t].mutexes);
    SteadyKeys(s, s1);
    SteadyNoneWaits(s, s1);
    BuryOk(s1, t);
    BuryRunner(s, s1, Bury(s1, t), t);
    BuryKinds(s, s1, Bury(s1, t), t);
  }

  lemma BuryKinds(s: State, s1: State, s2: State, t: Tid)
    requires Steady(s, s1) && BuryFrame(s1, s2, t) && t in s.tasks
    ensures t in s2.tasks && !s2.tasks[t].Live()
    ensures s2.objs.Keys == s.objs.Keys && forall o :: o in s.objs ==> s2.objs[o].kind == s.objs[o].kind
  {
  }

  /** The task to be deleted is refused before its mutexes are freed. */
  predicate DelRefused(s: State, t: Tid) {
    s.nesting > 0 || s.T(t).prio == IDLE_PRI || (t == s.active && s.schedLock > 0)
  }

  lemma TaskDelIs(s: State, which: Option<Tid>)
    ensures
      var t := if which.Some? then which.value else s.active;
      var ms := s.T(t).mutexes;
      TaskDel(s, which).0 ==
        if DelRefused(s, t) then s
        else if s.T(t).Live() then CoreSched(Epitaph(Bury(FreeMutexes(s, t, ms), t), t, ms))
        else FreeStale(s, StaleList(s, t))
  {
    hide CoreSched, FreeMutexes, Bury, FreeStale, StaleList, Epitaph;
  }

  lemma TaskDelInv(s: State, which: Option<Tid>)
    requires Inv(s) && Enabled(s, DelTask(which))
    ensures Inv(TaskDel(s, which).0)
  {
    hide Inv, CoreSched, FreeMutexes, Bury, StaleSafe, FreeStale, StaleList, Disowned, Epitaph, TaskDel, DelRefused;
    var t := if which.Some? then which.value else s.active;
    TaskDelIs(s, which);
    if !DelRefused(s, t) {
      if s.T(t).Live() {
        DelLiveInv(s, t);
      } else {
        StaleAllowed(s, which, t);
        StaleKeeps(s, t);
      }
    }
  }

  lemma StaleAllowed(s: State, which: Option<Tid>, t: Tid)
    requires Enabled(s, DelTask(which)) && t == (if which.Some? then which.value else s.active)
    requires !DelRefused(s, t) && !s.T(t).Live()
    ensures StaleSafe(s, t)
  {
    hide StaleSafe;
  }

  lemma DelLiveInv(s: State, t: Tid)
    requires Inv(s) && !DelRefused(s, t) && t in s.tasks && s.tasks[t].Live()
    ensures var ms := s.tasks[t].mutexes; Inv(CoreSched(Epitaph(Bury(FreeMutexes(s, t, ms), t), t, ms)))
  {
    hide Inv, Base, PiOk, NoneWaits, CoreSched, FreeMutexes, Bury, RunnerOk;
    var ms := s.tasks[t].mutexes;
    var s2 := Bury(FreeMutexes(s, t, ms), t);
    DelLive(s, t);
    HeldPtrs(s, t);
    EpitaphInv(s2, t, ms);
    EpitaphRunner(s2, t, ms);
    hide Epitaph;
    SchedInv(Epitaph(s2, t, ms));
  }

  lemma HeldPtrs(s: State, t: Tid)
    requires Inv(s) && t in s.tasks
    ensures forall m :: m in s.tasks[t].mutexes ==> m in s.objs && s.objs[m].kind != Other
  {
    InvOwns(s);
    assert LinksOk(s);
    hide OwnsOk, Inv;
    forall m | m in s.tasks[t].mutexes ensures m in s.objs && s.objs[m].kind != Other { assert MutexPtr(s, m); }
  }

  lemma EpitaphRunner(s: State, t: Tid, ms: seq<Oid>)
    requires RunnerOk(s) && t in s.tasks
    ensures RunnerOk(Epitaph(s, t, ms))
  {
  }

  lemma BuryRunner(s: State, s1: State, s2: State, t: Tid)
    requires ActiveOk(s) && s.nesting == 0 && (t != s.active || s.schedLock == 0)
    requires Steady(s, s1) && BuryFrame(s1, s2, t) && NoneWaits(s1)
    ensures RunnerOk(s2) && NoneWaits(s2)
  {
    forall o | o in s2.objs && s2.objs[o].kind == NoKind ensures s2.objs[o].waiters == [] {
      SubEmpty(s2.objs[o].waiters, s1.objs[o].waiters);
    }
  }

  // ---- objects without inheritance --------------------------------------------------------

  lemma ObjPendInv(s: State, o: Oid, ticks: nat)
    requires Inv(s) && Enabled(s, PendOn(o, ticks))
    ensures Inv(ObjPend(s, o, ticks).0)
  {
    hide Inv, Base, PiOk, NoneWaits, CoreSched, Block, ActiveOk, OwnsOk;
    if s.nesting == 0 && s.O(o).kind == Other && ticks != NO_WAIT && s.schedLock == 0 {
      InvParts(s);
      InvTask(s, s.active);
      OwnsThere(s);
      BlockBase(s, o, s.active, ticks);
      BlockPi(s, o, s.active, ticks, None);
      BlockNoneWaits(s, o, s.active, ticks);
      BlockEnv(s, o, s.active, ticks);
      SchedInv(Block(s, o, s.active, ticks));
    }
  }

  lemma WaiterOf(s: State, o: Oid, t: Tid)
    requires Base(s, None) && o in s.objs && t in s.objs[o].waiters
    ensures t in s.tasks && s.tasks[t].Waiting() && s.tasks[t].blkObj == Some(o)
    ensures s.objs[o].kind != Mutex ==> forall u :: u in s.tasks && s.tasks[u].Live() ==> o !in s.tasks[u].mutexes
  {
    hide SortedOk, ReadyOk, TicksOk, TasksOk, NoDup, MutexOk;
  }

  lemma ObjWakeInv(s: State, o: Oid, t: Tid)
    requires Inv(s)
    ensures Inv(ObjWake(s, o, t).0)
  {
    if s.O(o).kind == Other && t in s.O(o).waiters {
      WaiterOf(s, o, t);
      hide Base, PiOk, NoneWaits, CoreSched, Wakeup, ActiveOk, Calm, Steady;
      WakeupPi(s, t, BlkFinish, None, None);
      CalmSteady(s, Wakeup(s, t, BlkFinish), t);
      SteadyNoneWaits(s, Wakeup(s, t, BlkFinish));
      SteadyRuns(s, Wakeup(s, t, BlkFinish));
      SchedInv(Wakeup(s, t, BlkFinish));
    }
  }

  // ---- tick_list_update --------------------------------------------------------------------

  /** What becomes of the record of a due task. */
  function Expired(k: Task): Task {
    match k.state
    case Sleep => k.(state := Rdy, blkState := BlkFinish, ticking := false)
    case SleepSuspended => k.(state := Suspended, blkState := BlkFinish, ticking := false)
    case Pend => k.(state := Rdy, blkState := BlkTimeout, ticking := false, blkObj := None)
    case PendSuspended => k.(state := Suspended, blkState := BlkTimeout, ticking := false, blkObj := None)
    case _ => k
  }

  /** One due task: it alone changes, priorities of mutex owners aside. */
  ghost predicate ExpiredStep(s: State, s1: State, t: Tid) {
    && s1.tasks.Keys == s.tasks.Keys && t in s.tasks && s1.ticks == Remove(s.ticks, t) && s1.now == s.now
    && s1.tasks[t] == Expired(s.tasks[t]).(prio := s1.tasks[t].prio)
    && forall u :: u in s.tasks && u != t ==> s1.tasks[u] == s.tasks[u].(prio := s1.tasks[u].prio)
  }

  lemma ExpireSleep(s: State, t: Tid)
    requires Safe(s) && t in s.tasks && s.tasks[t].state == Sleep && s.tasks[t].ticking
    ensures Safe(Expire(s, t)) && Steady(s, Expire(s, t)) && ExpiredStep(s, Expire(s, t), t)
  {
    hide Base, PiOk, NoneWaits, Remove, ReadyAdd, Steady;
    var k1 := s.tasks[t].(ticking := false, state := Rdy, blkState := BlkFinish);
    IdleTask(s, t);
    var a := s.PutT(t, k1).(ticks := Remove(s.ticks, t));
    assert TickRm(s, t).PutT(t, TickRm(s, t).T(t).(state := Rdy, blkState := BlkFinish)) == a;
    ReadyAddFrame(a, t, false);
    BecomeReady(s, Expire(s, t), t, k1);
  }

  lemma QueuesHere(s: State)
    requires Base(s, None)
    ensures ReadyOk(s, None) && TicksOk(s)
  {
  }

  lemma ExpireSuspended(s: State, t: Tid)
    requires Safe(s) && t in s.tasks && s.tasks[t].state == SleepSuspended && s.tasks[t].ticking
    ensures Safe(Expire(s, t)) && Steady(s, Expire(s, t)) && ExpiredStep(s, Expire(s, t), t)
  {
    hide PiOk, NoneWaits, Remove, Base, ReadyOk, TicksOk;
    var s1 := Expire(s, t);
    IdleTask(s, t);
    QueuesHere(s);
    ReadySame(s, s1);
    LeaveTicks(s, s1, t);
    SwitchedBase(s, s1, t);
  }

  lemma ExpirePend(s: State, t: Tid)
    requires Safe(s) && t in s.tasks && s.tasks[t].Waiting()
    ensures Safe(Expire(s, t)) && Steady(s, Expire(s, t)) && ExpiredStep(s, Expire(s, t), t)
  {
    hide Base, PiOk, NoneWaits, Remove, Steady, Unblock, Reset, ClearBlk;
    var ready := s.tasks[t].state == Pend;
    EndWaitSafe(s, t, BlkTimeout, ready);
    EndWaitShape(s, t, BlkTimeout, ready);
    EndWaitRecord(s, t, BlkTimeout, ready);
    EndWaitNow(s, t, BlkTimeout, ready);
  }

  lemma EndWaitNow(s: State, t: Tid, why: BlkState, toReady: bool)
    requires Base(s, None) && PiOk(s, None) && t in s.tasks && s.tasks[t].Waiting()
    requires !toReady ==> s.tasks[t].state == PendSuspended
    ensures
      var s1 := ClearBlk(Reset(Unblock(s, t, why, toReady), t), t);
      s1.now == s.now && s1.tasks.Keys == s.tasks.Keys
  {
    hide Base, PiOk, Unblock, Reset, ClearBlk, Shrinks;
    EndWait(s, t, why, toReady);
  }

  lemma EndWaitRecord(s: State, t: Tid, why: BlkState, toReady: bool)
    requires Base(s, None) && PiOk(s, None) && t in s.tasks && s.tasks[t].Waiting()
    requires !toReady ==> s.tasks[t].state == PendSuspended
    ensures
      var s1 := ClearBlk(Reset(Unblock(s, t, why, toReady), t), t);
      var k := s.tasks[t].(state := if toReady then Rdy else Suspended, blkState := why, ticking := false, blkObj := None);
      s1.T(t) == k.(prio := s1.T(t).prio)
  {
    hide ReadyOk, SortedOk, OwnsOk, TasksOk, TicksOk, PiOk, Unblock, Reset, Remove;
    UnblockShape(s, t, why, toReady);
    ResetPi(s, t, why, toReady);
    hide Base, WaitsOk;
    PrioOnlyShape(s, Unblock(s, t, why, toReady), Reset(Unblock(s, t, why, toReady), t), t);
  }

  lemma ExpireOk(s: State, t: Tid)
    requires Safe(s) && t in s.ticks
    ensures Safe(Expire(s, t)) && Steady(s, Expire(s, t)) && ExpiredStep(s, Expire(s, t), t)
  {
    TickKinds(s, t);
    hide Safe, Expire, Steady, ExpiredStep;
    match s.tasks[t].state {
      case Sleep => ExpireSleep(s, t);
      case SleepSuspended => ExpireSuspended(s, t);
      case Pend | PendSuspended => ExpirePend(s, t);
    }
  }

  lemma TickKinds(s: State, t: Tid)
    requires Safe(s) && t in s.ticks
    ensures t in s.tasks && s.tasks[t].ticking && NoDup(s.ticks)
    ensures s.tasks[t].state in {Sleep, SleepSuspended, Pend, PendSuspended}
  {
    hide WaitsOk, SortedOk, OwnsOk, ReadyOk, PiOk, NoneWaits;
  }

  lemma {:induction false} DrainOk(s: State, q: seq<Tid>)
    requires Safe(s) && s.ticks == q
    ensures Safe(Drain(s, q)) && Steady(s, Drain(s, q))
    decreases |q|
  {
    if q == [] || !Due(s, q[0]) {
      SteadyRefl(s);
    } else {
      hide Safe, Expire, Steady, Due, Remove;
      var s1 := Expire(s, q[0]);
      TickKinds(s, q[0]);
      ExpireOk(s, q[0]);
      RemoveHead(q);
      DrainOk(s1, q[1..]);
      SteadyTrans(s, s1, Drain(s1, q[1..]));
    }
  }

  lemma NowSafe(s: State, n: nat)
    requires Safe(s)
    ensures Safe(s.(now := n))
  {
    hide ReadyOk, WaitsOk, SortedOk, OwnsOk;
    var s1 := s.(now := n);
    TakeLists(s, s1);
    ReadySame(s, s1);
    OwnsFrame(s, s1, None);
    PiSame(s, s1, None);
  }

  lemma TickUpdateInv(s: State, n: nat)
    requires Inv(s) && Enabled(s, Tick(n))
    ensures Inv(TickUpdate(s, n))
  {
    hide Safe, Drain, Base, PiOk, NoneWaits;
    ActiveThere(s);
    var s1 := s.(now := (s.now + n) % TICK_SPAN);
    NowSafe(s, (s.now + n) % TICK_SPAN);
    DrainOk(s1, s1.ticks);
    SafeParts(Drain(s1, s1.ticks));
  }

  lemma SafeParts(s: State)
    requires Safe(s)
    ensures Base(s, None) && PiOk(s, None) && NoneWaits(s)
  {
  }

  // ---- time slices, interrupts, scheduler lock ---------------------------------------------------

  lemma TimeSliceInv(s: State)
    requires Inv(s) && Enabled(s, Slice)
    ensures Inv(TimeSlice(s))
  {
    hide Safe, Base, PiOk, NoneWaits, Rotate;
    RotateSafe(s, s.T(s.active).prio);
    RotateFrame(s, s.T(s.active).prio);
    SafeParts(Rotate(s, s.T(s.active).prio));
  }

  /** Only the nesting counters differ. */
  lemma CountersSafe(s: State, s1: State)
    requires Safe(s) && s1 == s.(nesting := s1.nesting, schedLock := s1.schedLock)
    ensures Safe(s1)
  {
    ActiveIn(s);
    hide Base;
    ActiveBase(s, s1);
    PiSame(s, s1, None);
  }

  lemma CountersInv(s: State)
    requires Inv(s)
    ensures Inv(IntrptEnter(s)) && Inv(SchedDisable(s).0) && Inv(SchedEnable(s).0)
    ensures s.nesting > 0 ==> Inv(IntrptExit(s))
  {
    hide Safe, Base, PiOk, NoneWaits, CoreSched;
    ActiveThere(s);
    CountersSafe(s, IntrptEnter(s));
    SafeParts(IntrptEnter(s));
    if s.nesting == 0 && s.schedLock > 0 {
      var s1 := s.(schedLock := s.schedLock - 1);
      CountersSafe(s, s1);
      SafeParts(s1);
      SchedInv(s1);
    }
    if s.nesting == 0 {
      CountersSafe(s, s.(schedLock := s.schedLock + 1));
      SafeParts(s.(schedLock := s.schedLock + 1));
    }
    if s.nesting > 0 {
      CountersSafe(s, s.(nesting := s.nesting - 1));
      SchedInv(s.(nesting := s.nesting - 1));
    }
  }

  // ---- runs --------------------------------------------------------------------------------------

  /** Every kernel routine keeps the whole invariant. */
  lemma ExecInv(s: State, c: Call)
    requires Inv(s) && Enabled(s, c)
    ensures Inv(Exec(s, c))
  {
    hide Inv, MutexLock, MutexUnlock, MutexDel, TaskPriChange, TaskSuspend, TaskResume, TaskSleep, TaskYield,
      TaskWaitAbort, TaskDel, ObjPend, ObjWake, ObjDel, TickUpdate, TimeSlice, IntrptEnter, IntrptExit, SchedDisable, SchedEnable;
    match c {
      case Lock(m, ticks) => MutexLockInv(s, m, ticks);
      case Unlock(m) => MutexUnlockInv(s, m);
      case DelMutex(m) => MutexDelInv(s, m);
      case ChangePri(t, pri) => TaskPriChangeInv(s, t, pri);
      case SuspendTask(t) => TaskSuspendInv(s, t);
      case ResumeTask(t) => TaskResumeInv(s, t);
      case SleepFor(ticks) => TaskSleepInv(s, ticks);
      case Yield => TaskYieldInv(s);
      case WaitAbort(t) => TaskWaitAbortInv(s, t);
      case DelTask(which) => TaskDelInv(s, which);
      case PendOn(o, ticks) => ObjPendInv(s, o, ticks);
      case Wake(o, t) => ObjWakeInv(s, o, t);
      case DelObj(o) => ObjDelInv(s, o);
      case Tick(n) => TickUpdateInv(s, n);
      case Slice => TimeSliceInv(s);
      case Enter => CountersInv(s);
      case Exit => CountersInv(s);
      case Disable => CountersInv(s);
      case Enable => CountersInv(s);
    }
  }

  /** A run: calls made one after the other, each allowed where it is made. */
  ghost predicate Run(s: State, cs: seq<Call>, s1: State)
    decreases |cs|
  {
    if cs == [] then s1 == s else Enabled(s, cs[0]) && Run(Exec(s, cs[0]), cs[1..], s1)
  }

  /** Safety over whole runs: whatever is called, in whatever order, the lists
      agree with the task states, ownership is consistent, wait lists are sorted,
      every live task runs at its inherited priority and the best ready task runs. */
  lemma {:induction false} RunInv(s: State, cs: seq<Call>, s1: State)
    requires Inv(s) && Run(s, cs, s1)
    ensures Inv(s1)
    decreases |cs|
  {
    hide Inv, Exec, Enabled;
    if cs != [] {
      ExecInv(s, cs[0]);
      RunInv(Exec(s, cs[0]), cs[1..], s1);
    }
  }

  /** The kernel after start-up: ready or suspended tasks at their own priority,
      nobody waiting, nothing owned. */
  ghost predicate Initial(s: State) {
    && ReadyOk(s, None) && TasksOk(s) && s.ticks == [] && s.schedLock == 0 && s.nesting == 0 && s.active == Preferred(s)
    && (forall t :: t in s.tasks ==>
          var k := s.tasks[t];
          k.state in {Rdy, Suspended} && k.prio == k.bPrio && k.mutexes == [] && !k.ticking && k.blkObj == None)
    && (forall o :: o in s.objs ==>
          var b := s.objs[o];
          b.waiters == [] && b.owner == None && b.next == None && (b.kind == Mutex ==> b.policy == ByPrio))
  }

  lemma FreshLinks(s: State)
    requires forall t :: t in s.tasks ==> s.tasks[t].mutexes == []
    requires forall o :: o in s.objs ==> s.objs[o].next == None
    ensures LinksOk(s)
  {
    var rank: map<Oid, nat> := map o | o in s.objs :: 0;
    assert Ranked(s.objs, rank);
  }

  lemma InitialInv(s: State)
    requires Initial(s)
    ensures Inv(s)
  {
    PreferredReady(s);
    assert OwnsOk(s, None) by {
      hide ReadyOk, TasksOk;
      FreshLinks(s);
      hide LinksOk;
      forall m | m in s.objs && s.objs[m].kind == Mutex ensures MutexOk(s, m, false) {}
    }
    assert WaitsOk(s) && SortedOk(s) && TicksOk(s) by { hide ReadyOk, TasksOk, OwnsOk; }
    hide ReadyOk, OwnsOk, WaitsOk, SortedOk, TicksOk, TasksOk;
    forall t | t in s.tasks && s.tasks[t].Live() ensures PiAt(s, t) {}
  }
}
