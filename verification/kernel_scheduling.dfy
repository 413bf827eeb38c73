/** When the CPU changes hands: not while the scheduler is locked or an interrupt is being
    served, whatever is called. */
module KernelScheduling {
  import opened Options
  import opened Lists
  import opened KernelState
  import opened KernelSteps
  import opened KernelInvariants
  import opened KernelWaits
  import opened KernelBlock
  import opened KernelCalls
  import opened KernelTasks
  import opened KernelDeletion
  import opened KernelRun
  import opened KernelCounts
  import opened KernelEffects

  /** No task switch may happen. */
  predicate Held(s: State) { s.nesting > 0 || s.schedLock > 0 }

  /** The same task runs, and the counters are the same. */
  ghost predicate SameRunner(s: State, s1: State) {
    s1.active == s.active && s1.schedLock == s.schedLock && s1.nesting == s.nesting
  }

  lemma QuietRunner(s: State, s1: State, m: Oid)
    requires Quiet(s, s1, m) && Held(s)
    ensures SameRunner(s, s1) && SameRunner(s, CoreSched(s1))
  {
  }

  lemma MutexRunner(s: State, c: Call)
    requires Held(s) && (c.Lock? || c.Unlock? || c.DelMutex?)
    ensures SameRunner(s, Exec(s, c))
  {
    hide CoreSched, Block, PriChange, Drop, Relook, HandOver, WakeAll, Quiet, SameRunner;
    var m := c.m + 1;
    QuietRefl(s, m);
    QuietRunner(s, s, m);
    match c {
      case Lock(o, ticks) => LockRunner(s, o, ticks);
      case Unlock(o) => UnlockRunner(s, o, m);
      case DelMutex(o) => DelMutexRunner(s, o, m);
    }
  }

  /** With the scheduler locked nobody blocks. */
  lemma LockRunner(s: State, o: Oid, ticks: nat)
    requires Held(s)
    ensures SameRunner(s, MutexLock(s, o, ticks).0)
  {
    hide CoreSched, Block, PriChange;
  }

  lemma UnlockRunner(s: State, o: Oid, m: Oid)
    requires Held(s) && m != o
    ensures SameRunner(s, MutexUnlock(s, o).0)
  {
    hide Drop, Relook, HandOver, CoreSched, Quiet;
    var b := s.O(o);
    if s.nesting == 0 && b.kind == Mutex && b.owner == Some(s.active) {
      var s0 := s.PutO(o, b.(nested := 0));
      var d := Drop(s0, s.active, o);
      var s1 := Relook(d, s.active);
      PutQuiet(s, o, b.(nested := 0), m);
      DropQuiet(s0, s.active, o, m);
      RelookQuiet(d, s.active, m);
      HandOverQuiet(s1, o, 1, m);
      QuietTrans(s, s0, d, m);
      QuietTrans(s, d, s1, m);
      QuietTrans(s, s1, HandOver(s1, o, 1), m);
      QuietRunner(s, HandOver(s1, o, 1), m);
    }
  }

  lemma WakeAllRunner(s: State, s1: State, q: seq<Tid>, m: Oid)
    requires Held(s) && Quiet(s, s1, m)
    ensures SameRunner(s, CoreSched(WakeAll(s1, q, BlkDel)))
  {
    hide WakeAll, CoreSched, Quiet;
    WakeAllQuiet(s1, q, BlkDel, m);
    QuietTrans(s, s1, WakeAll(s1, q, BlkDel), m);
    QuietRunner(s, WakeAll(s1, q, BlkDel), m);
  }

  lemma DelMutexRunner(s: State, o: Oid, m: Oid)
    requires Held(s) && m != o
    ensures SameRunner(s, MutexDel(s, o).0)
  {
    hide Drop, Relook, WakeAll, CoreSched, Quiet;
    var s1 := s.PutO(o, s.O(o).(kind := NoKind));
    PutQuiet(s, o, s.O(o).(kind := NoKind), m);
    match s.O(o).owner {
      case None => WakeAllRunner(s, s1, s1.O(o).waiters, m);
      case Some(u) =>
        var d := Drop(s1, u, o);
        DropQuiet(s1, u, o, m);
        RelookQuiet(d, u, m);
        QuietTrans(s, s1, d, m);
        QuietTrans(s, d, Relook(d, u), m);
        WakeAllRunner(s, Relook(d, u), Relook(d, u).O(o).waiters, m);
    }
  }

  lemma TaskRunner(s: State, c: Call)
    requires Held(s) && (c.ChangePri? || c.SuspendTask? || c.ResumeTask? || c.SleepFor? || c.WaitAbort?)
    ensures SameRunner(s, Exec(s, c))
  {
    hide CoreSched, PriChange, MinFirst, ReadyRm, ReadyAdd, TickInsert, TickRm, Unblock, Reset, ClearBlk, Quiet, SameRunner;
    QuietRefl(s, 0);
    QuietRunner(s, s, 0);
    match c {
      case ChangePri(t, pri) =>
        var s1 := s.PutT(t, s.T(t).(bPrio := pri));
        TaskQuiet(s, t, s.T(t).(bPrio := pri));
        PriChangeQuiet(s1, t, MinFirst(s, s.T(t).mutexes, pri), 0);
        Onward(s, s1, PriChange(s1, t, MinFirst(s, s.T(t).mutexes, pri)));
      case SuspendTask(t) => SuspendRunner(s, t);
      case ResumeTask(t) => ResumeRunner(s, t);
      case SleepFor(ticks) =>
      case WaitAbort(t) => AbortRunner(s, t);
    }
  }

  lemma TaskQuiet(s: State, t: Tid, k: Task)
    ensures Quiet(s, s.PutT(t, k), 0)
  {
  }

  /** Two quiet steps, and scheduling. */
  lemma Onward(s: State, s1: State, s2: State)
    requires Held(s) && Quiet(s, s1, 0) && Quiet(s1, s2, 0)
    ensures SameRunner(s, CoreSched(s2))
  {
    hide CoreSched, Quiet;
    QuietTrans(s, s1, s2, 0);
    QuietRunner(s, s2, 0);
  }

  lemma SuspendRunner(s: State, t: Tid)
    requires Held(s)
    ensures SameRunner(s, TaskSuspend(s, t).0)
  {
    hide ReadyRm;
    ReadyQuiet(s.PutT(t, s.T(t).(suspends := 1, state := Suspended)), t, false, 0);
  }

  lemma ResumeRunner(s: State, t: Tid)
    requires Held(s)
    ensures SameRunner(s, TaskResume(s, t).0)
  {
    hide ReadyAdd;
    ReadyQuiet(s.PutT(t, s.T(t).(suspends := 0, state := Rdy)), t, false, 0);
  }

  lemma AbortRunner(s: State, t: Tid)
    requires Held(s)
    ensures SameRunner(s, TaskWaitAbort(s, t).0)
  {
    hide ReadyAdd, TickRm, Unblock, Reset, CoreSched, Quiet, SameRunner, ClearBlk;
    var k := s.T(t);
    QuietRefl(s, 0);
    QuietRunner(s, s, 0);
    match k.state {
      case Suspended =>
        var a := s.PutT(t, k.(state := Rdy));
        TaskQuiet(s, t, k.(state := Rdy));
        ReadyQuiet(a, t, false, 0);
        Onward(s, a, ReadyAdd(a, t, false));
      case Sleep | SleepSuspended =>
        var s1 := TickRm(s, t);
        var a := s1.PutT(t, s1.T(t).(state := Rdy, blkState := BlkAbort));
        ListQuiet(s, t, 0);
        TaskQuiet(s1, t, s1.T(t).(state := Rdy, blkState := BlkAbort));
        ReadyQuiet(a, t, false, 0);
        QuietTrans(s, s1, a, 0);
        Onward(s, a, ReadyAdd(a, t, false));
      case Pend | PendSuspended =>
        EndQuiet(s, t, BlkAbort, true, 0);
        QuietRunner(s, ClearBlk(Reset(Unblock(s, t, BlkAbort, true), t), t), 0);
      case _ =>
    }
  }

  lemma DelTaskRunner(s: State, which: Option<Tid>)
    requires Held(s) && Inv(s) && Enabled(s, DelTask(which))
    ensures SameRunner(s, TaskDel(s, which).0)
  {
    hide Inv, CoreSched, FreeMutexes, Bury, StaleSafe, FreeStale, StaleList, Disowned, Epitaph, TaskDel, DelRefused, Quiet;
    var t := if which.Some? then which.value else s.active;
    TaskDelIs(s, which);
    if !DelRefused(s, t) {
      if s.T(t).Live() {
        var ms := s.T(t).mutexes;
        var m: Oid := Fresh(ms);
        var s1 := FreeMutexes(s, t, ms);
        FreeMutexesQuiet(s, t, ms, m);
        BuryQuiet(s1, t, m);
        EpitaphQuiet(Bury(s1, t), t, ms, m);
        QuietTrans(s, s1, Bury(s1, t), m);
        QuietTrans(s, Bury(s1, t), Epitaph(Bury(s1, t), t, ms), m);
        QuietRunner(s, Epitaph(Bury(s1, t), t, ms), m);
      } else {
        StaleAllowed(s, which, t);
        StaleKeeps(s, t);
        DisownedRunner(s, FreeStale(s, StaleList(s, t)));
      }
    }
  }

  lemma DisownedRunner(s: State, s1: State)
    requires Disowned(s, s1)
    ensures SameRunner(s, s1)
  {
  }

  lemma ObjRunner(s: State, c: Call)
    requires Held(s) && (c.PendOn? || c.Wake? || c.DelObj?)
    ensures SameRunner(s, Exec(s, c))
  {
    hide Block, Wakeup, WakeAll, CoreSched, Quiet, SameRunner;
    var m := c.o + 1;
    QuietRefl(s, m);
    QuietRunner(s, s, m);
    match c {
      case PendOn(o, ticks) => PendRunner(s, o, ticks);
      case Wake(o, t) =>
        WakeupQuiet(s, t, BlkFinish, m);
        QuietRunner(s, Wakeup(s, t, BlkFinish), m);
      case DelObj(o) =>
        var s1 := s.PutO(o, s.O(o).(kind := NoKind));
        PutQuiet(s, o, s.O(o).(kind := NoKind), m);
        WakeAllRunner(s, s1, s1.O(o).waiters, m);
    }
  }

  lemma PendRunner(s: State, o: Oid, ticks: nat)
    requires Held(s)
    ensures SameRunner(s, ObjPend(s, o, ticks).0)
  {
    hide Block, CoreSched;
  }

  /** As long as the scheduler is locked or an interrupt is served, no call and no tick
      takes the CPU from the task that has it. */
  lemma StaysRunning(s: State, c: Call)
    requires Inv(s) && Enabled(s, c) && (s.nesting > 0 || s.schedLock > 0)
    requires var s1 := Exec(s, c); s1.nesting > 0 || s1.schedLock > 0
    ensures Exec(s, c).active == s.active
  {
    hide Inv, Enabled, MutexLock, MutexUnlock, MutexDel, TaskPriChange, TaskSuspend, TaskResume, TaskSleep,
      TaskWaitAbort, TaskDel, ObjPend, ObjWake, ObjDel, Drain;
    match c {
      case Lock(_, _) => MutexRunner(s, c);
      case Unlock(_) => MutexRunner(s, c);
      case DelMutex(_) => MutexRunner(s, c);
      case DelTask(which) => DelTaskRunner(s, which);
      case PendOn(_, _) => ObjRunner(s, c);
      case Wake(_, _) => ObjRunner(s, c);
      case DelObj(_) => ObjRunner(s, c);
      case Tick(n) => DrainQuiet(s.(now := (s.now + n) % TICK_SPAN), s.ticks, 0);
      case ChangePri(_, _) => TaskRunner(s, c);
      case SuspendTask(_) => TaskRunner(s, c);
      case ResumeTask(_) => TaskRunner(s, c);
      case SleepFor(_) => TaskRunner(s, c);
      case WaitAbort(_) => TaskRunner(s, c);
      case _ =>
    }
  }

  // ---- locking the scheduler -------------------------------------------------------------------

  lemma {:induction false} DisableTimes(s: State, k: nat)
    requires s.nesting == 0 && s.schedLock + k <= 200
    ensures Final(s, Times(Disable, k)) == s.(schedLock := s.schedLock + k)
    decreases k
  {
    if k > 0 {
      DisableTimes(s.(schedLock := s.schedLock + 1), k - 1);
      assert ([Disable] + Times(Disable, k - 1))[1..] == Times(Disable, k - 1);
    }
  }

  lemma {:induction false} EnableTimes(s: State, j: nat)
    requires s.nesting == 0 && j < s.schedLock
    ensures Final(s, Times(Enable, j)) == s.(schedLock := s.schedLock - j)
    decreases j
  {
    hide CoreSched;
    if j > 0 {
      EnableTimes(s.(schedLock := s.schedLock - 1), j - 1);
      assert ([Enable] + Times(Enable, j - 1))[1..] == Times(Enable, j - 1);
    }
  }

  /** The scheduler locked k times stays locked, with nothing else changed, until it has been
      unlocked k times; only then the best ready task runs. */
  lemma LocksNest(s: State, k: nat, j: nat)
    requires s.nesting == 0 && s.schedLock == 0 && 0 < k <= 200 && j < k
    ensures Final(s, Times(Disable, k) + Times(Enable, j)) == s.(schedLock := k - j)
    ensures SchedEnable(s.(schedLock := 1)).0 == s.(active := Preferred(s))
    ensures SchedDisable(s.(schedLock := 200)) == (s.(schedLock := 200), SchedLockOvf)
    ensures SchedEnable(s) == (s, SchedAlreadyEnabled)
  {
    hide Final, Times;
    FinalJoin(s, Times(Disable, k), Times(Enable, j));
    DisableTimes(s, k);
    EnableTimes(s.(schedLock := k), j);
  }

  // ---- equals take turns, they do not push in --------------------------------------------------

  /** The scheduler is free, and a runs as the first of the best ready list. */
  predicate RunsFirst(s: State, a: Tid) {
    && s.nesting == 0 && s.schedLock == 0 && s.active == a
    && s.highest < |s.ready| && s.ready[s.highest] != [] && s.ready[s.highest][0] == a
  }

  lemma FirstThere(s: State)
    requires Inv(s) && s.nesting == 0 && s.schedLock == 0
    ensures RunsFirst(s, s.active) && s.T(s.active).prio == s.highest && |s.ready| == PRI_MAX
  {
    RunningThere(s);
    hide WaitsOk, SortedOk, TicksOk, OwnsOk, PiOk, NoneWaits, ListOk, TasksOk;
  }

  /** Whoever becomes ready with no better priority than the running task goes behind it. */
  lemma AddedBehind(s: State, s1: State, t: Tid)
    requires RunsFirst(s, s.active) && s.highest <= s1.T(t).prio
    requires s1.ready == s.ready && s1.highest == s.highest && s1.active == s.active && s1.nesting == 0 && s1.schedLock == 0
    ensures CoreSched(ReadyAdd(s1, t, false)).active == s.active
    ensures var p, s2 := s1.T(t).prio, ReadyAdd(s1, t, false); |s2.ready| == |s.ready| && (p < |s.ready| ==> s2.ready[p] == s.ready[p] + [t])
  {
    var p := s1.T(t).prio;
    if p < |s.ready| && s.ready[p] == [] { assert [] + [t] == [t]; }
  }

  /** A task that is given what it waited for does not take the CPU from one that is at least
      as urgent, but stands behind all of its priority. */
  lemma WakeBehind(s: State, o: Oid, t: Tid)
    requires Inv(s) && s.nesting == 0 && s.schedLock == 0 && o in s.objs && s.objs[o].kind == Other && t in s.objs[o].waiters
    requires s.T(s.active).prio <= s.T(t).prio
    ensures var s1, p := ObjWake(s, o, t).0, s.T(t).prio;
      && s1.active == s.active
      && (s.T(t).state == Pend && p < |s.ready| ==> p < |s1.ready| && s1.ready[p] == s.ready[p] + [t])
  {
    hide Inv, Unpend, TickRm, ReadyAdd, CoreSched;
    FirstThere(s);
    WokenLists(s, t);
    var s1 := TickRm(Unpend(s, t), t);
    var s2 := s1.PutT(t, s1.T(t).(state := Rdy, blkState := BlkFinish));
    AddedBehind(s, s2, t);
    WakeSteps(s, o, t);
    var s3 := Wakeup(s, t, BlkFinish);
    if s.T(t).state == Pend {
      SameChoice(ReadyAdd(s2, t, false), s3);
      SchedKeeps(s3);
    } else {
      StillFirst(s, s3);
      SchedKeeps(s3);
    }
  }

  /** Neither wait list nor tick list has to do with who runs. */
  lemma WokenLists(s: State, t: Tid)
    ensures var s1 := TickRm(Unpend(s, t), t);
      && s1.ready == s.ready && s1.highest == s.highest && s1.active == s.active && s1.nesting == s.nesting && s1.schedLock == s.schedLock
      && s1.T(t).prio == s.T(t).prio && s1.T(t).state == s.T(t).state
  {
    hide Remove;
  }

  lemma WakeSteps(s: State, o: Oid, t: Tid)
    requires s.O(o).kind == Other && t in s.O(o).waiters
    ensures var s1 := TickRm(Unpend(s, t), t);
      var s2 := s1.PutT(t, s1.T(t).(state := if s.T(t).state == Pend then Rdy else Suspended, blkState := BlkFinish));
      && ObjWake(s, o, t).0 == CoreSched(Wakeup(s, t, BlkFinish))
      && Wakeup(s, t, BlkFinish) == ClearBlk(if s.T(t).state == Pend then ReadyAdd(s2, t, false) else s2, t)
  {
    hide Unpend, TickRm, ReadyAdd, CoreSched;
  }

  /** Scheduling looks at the ready lists only. */
  lemma SameChoice(s: State, s1: State)
    requires s1 == s.(tasks := s1.tasks)
    ensures CoreSched(s1).active == CoreSched(s).active && CoreSched(s1).ready == s.ready
  {
  }

  lemma StillFirst(s: State, s1: State)
    requires RunsFirst(s, s.active) && s1.ready == s.ready && s1.highest == s.highest && s1.active == s.active
    ensures CoreSched(s1).active == s.active
  {
  }

  /** Nor does a task that is resumed. */
  lemma ResumeBehind(s: State, t: Tid)
    requires Inv(s) && s.nesting == 0 && s.schedLock == 0 && t in s.tasks && s.tasks[t].state == Suspended
    requires s.tasks[t].suspends == 1 && s.T(s.active).prio <= s.tasks[t].prio
    ensures var s1, p := TaskResume(s, t).0, s.tasks[t].prio;
      s1.active == s.active && (p < |s.ready| ==> p < |s1.ready| && s1.ready[p] == s.ready[p] + [t])
  {
    hide Inv, ReadyAdd, CoreSched;
    FirstThere(s);
    var s1 := s.PutT(t, s.tasks[t].(suspends := 0, state := Rdy));
    AddedBehind(s, s1, t);
    ResumeSteps(s, t);
    SchedKeeps(ReadyAdd(s1, t, false));
  }

  lemma ResumeSteps(s: State, t: Tid)
    requires t in s.tasks && s.tasks[t].state == Suspended && s.tasks[t].suspends == 1
    ensures TaskResume(s, t).0 == CoreSched(ReadyAdd(s.PutT(t, s.tasks[t].(suspends := 0, state := Rdy)), t, false))
  {
    hide ReadyAdd, CoreSched;
  }

  lemma AddedFront(s: State, t: Tid, p: nat)
    requires t == s.active && t in s.tasks && s.tasks[t].state == Rdy && p < |s.ready|
    ensures var s2 := SetPrio(s, t, p); p < |s2.ready| && s2.ready[p] != [] && s2.ready[p][0] == t
  {
    hide Remove, LeastFrom;
    ReadyRmFrame(s, t);
  }

  lemma BestIsHighest(s: State, t: Tid, p: nat)
    requires Inv(s) && s.nesting == 0 && s.schedLock == 0 && p < |s.ready| && s.ready[p] != [] && s.ready[p][0] == t
    requires forall u :: u in s.tasks && s.tasks[u].state == Rdy ==> p <= s.tasks[u].prio
    ensures s.active == t
  {
    hide WaitsOk, SortedOk, TicksOk, OwnsOk, PiOk, NoneWaits, NoDup;
    RunningThere(s);
    assert ListOk(s, s.highest, None);
    assert s.ready[s.highest][0] in s.ready[s.highest];
  }

  /** The running task, if nobody waits for what it holds, keeps the CPU through a change of
      its base priority as long as no other ready task is more urgent than it is then: it
      does not go behind its equals. */
  lemma KeepsCpu(s: State, pri: nat)
    requires Inv(s) && s.nesting == 0 && s.schedLock == 0 && s.active != IDLE && pri < IDLE_PRI
    requires forall m :: m in s.T(s.active).mutexes ==> s.O(m).waiters == []
    requires forall u :: u in s.tasks && s.tasks[u].state == Rdy ==> pri <= s.tasks[u].prio || u == s.active
    ensures TaskPriChange(s, s.active, pri).0.active == s.active
  {
    hide Inv, SetPrio, CoreSched, TaskPriChange, MinFirst;
    var t := s.active;
    RunnerFacts(s);
    PriChangeIs(s, t, pri);
    TaskPriChangeInv(s, t, pri);
    FirstThere(s);
    var s1 := s.PutT(t, s.tasks[t].(bPrio := pri));
    PriSteps(s, pri);
    FrontOf(s, s1, t, pri);
    BestIsHighest(TaskPriChange(s, t, pri).0, t, pri);
  }

  /** What changing the base priority of the running task comes to. */
  lemma PriSteps(s: State, pri: nat)
    requires s.nesting == 0 && s.active in s.tasks && s.tasks[s.active].state == Rdy && s.tasks[s.active].prio < IDLE_PRI && pri < IDLE_PRI
    requires forall m :: m in s.tasks[s.active].mutexes ==> s.O(m).waiters == []
    ensures var s1 := s.PutT(s.active, s.tasks[s.active].(bPrio := pri));
      TaskPriChange(s, s.active, pri).0 == CoreSched(if pri == s.tasks[s.active].prio then s1 else SetPrio(s1, s.active, pri))
  {
    hide SetPrio, CoreSched, MinFirst;
    NoFirst(s, s.tasks[s.active].mutexes, pri);
  }

  lemma {:induction false} NoFirst(s: State, ms: seq<Oid>, acc: nat)
    requires forall m :: m in ms ==> s.O(m).waiters == []
    ensures MinFirst(s, ms, acc) == acc
  {
    if ms != [] {
      assert ms[0] in ms && forall m :: m in ms[1..] ==> m in ms;
      NoFirst(s, ms[1..], acc);
    }
  }

  lemma FrontOf(s: State, s1: State, t: Tid, pri: nat)
    requires RunsFirst(s, t) && t in s.tasks && s.tasks[t].state == Rdy && s.tasks[t].prio == s.highest && pri < |s.ready|
    requires s1 == s.(tasks := s1.tasks) && t in s1.tasks && s1.tasks[t].state == Rdy && s1.tasks[t].prio == s.tasks[t].prio
    ensures var s2 := CoreSched(if pri == s.tasks[t].prio then s1 else SetPrio(s1, t, pri));
      && pri < |s2.ready| && s2.ready[pri] != [] && s2.ready[pri][0] == t && s2.nesting == 0 && s2.schedLock == 0
      && s2.tasks == s1.tasks[t := s1.tasks[t].(prio := pri)]
  {
    hide SetPrio, CoreSched;
    AddedFront(s1, t, pri);
    SetPrioFrame(s1, t, pri);
    SetPrioQuiet(s1, t, pri, 0);
    SchedKeeps(s1);
    SchedKeeps(SetPrio(s1, t, pri));
  }
}
