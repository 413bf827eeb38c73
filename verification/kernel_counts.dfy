/** What nested locking counts, over whole runs: a mutex is given up by as many unlocks as
    there were locks, whatever else happens in between. */
module KernelCounts {
  import opened Options
  import opened Lists
  import opened KernelState
  import opened KernelSteps
  import opened KernelInvariants
  import opened KernelInheritance
  import opened KernelWaits
  import opened KernelMutexes
  import opened KernelHandOver
  import opened KernelBlock
  import opened KernelCalls
  import opened KernelTasks
  import opened KernelDeletion
  import opened KernelRun
  import opened KernelEffective

  // ---- steps that do not touch the holder of m ------------------------------------------------

  /** Who holds m, and how often, is as it was, and so are the scheduler's counters. */
  ghost predicate Quiet(s: State, s1: State, m: Oid) {
    && s1.O(m).owner == s.O(m).owner && s1.O(m).nested == s.O(m).nested && s1.O(m).kind == s.O(m).kind
    && s1.active == s.active && s1.schedLock == s.schedLock && s1.nesting == s.nesting
  }

  lemma QuietTrans(s: State, s1: State, s2: State, m: Oid)
    requires Quiet(s, s1, m) && Quiet(s1, s2, m)
    ensures Quiet(s, s2, m)
  {
  }

  lemma ReadyQuiet(s: State, t: Tid, atHead: bool, m: Oid)
    ensures Quiet(s, ReadyAdd(s, t, atHead), m) && Quiet(s, ReadyRm(s, t), m)
  {
    hide Remove, LeastFrom;
  }

  lemma ListQuiet(s: State, t: Tid, m: Oid)
    ensures Quiet(s, Unpend(s, t), m) && Quiet(s, TickRm(s, t), m) && Quiet(s, Reorder(s, t), m)
  {
    hide Remove, InsertByPrio;
  }

  lemma UnblockQuiet(s: State, t: Tid, why: BlkState, toReady: bool, m: Oid)
    ensures Quiet(s, Unblock(s, t, why, toReady), m)
  {
    hide Unpend, TickRm, ReadyAdd;
    ListQuiet(s, t, m);
    var s1 := Unpend(s, t);
    ListQuiet(s1, t, m);
    var s2 := TickRm(s1, t).PutT(t, TickRm(s1, t).T(t).(state := if toReady then Rdy else Suspended, blkState := why));
    ReadyQuiet(s2, t, false, m);
  }

  lemma WakeupQuiet(s: State, t: Tid, why: BlkState, m: Oid)
    ensures Quiet(s, Wakeup(s, t, why), m)
  {
    hide Unblock;
    UnblockQuiet(s, t, why, s.T(t).state == Pend, m);
  }

  lemma {:induction false} WakeAllQuiet(s: State, q: seq<Tid>, why: BlkState, m: Oid)
    ensures Quiet(s, WakeAll(s, q, why), m)
    decreases |q|
  {
    hide Wakeup;
    if q != [] {
      WakeupQuiet(s, q[0], why, m);
      WakeAllQuiet(Wakeup(s, q[0], why), q[1..], why, m);
    }
  }

  lemma InsertQuiet(s: State, t: Tid, ticks: nat, m: Oid)
    ensures Quiet(s, TickInsert(s, t, ticks), m)
  {
    hide InsertByTick;
  }

  lemma BlockQuiet(s: State, o: Oid, t: Tid, ticks: nat, m: Oid)
    ensures Quiet(s, Block(s, o, t, ticks), m)
  {
    hide TickInsert, ReadyRm, InsertByPrio;
    var s1 := s.PutT(t, s.T(t).(blkObj := Some(o)));
    InsertQuiet(s1, t, ticks, m);
    var s2 := if ticks != WAIT_FOREVER then TickInsert(s1, t, ticks) else s1;
    ReadyQuiet(s2.PutT(t, s2.T(t).(state := Pend)), t, false, m);
  }

  lemma SetPrioQuiet(s: State, t: Tid, p: nat, m: Oid)
    ensures Quiet(s, SetPrio(s, t, p), m)
  {
    hide ReadyAdd, ReadyRm, Reorder;
    ReadyQuiet(s, t, false, m);
    ReadyQuiet(ReadyRm(s, t).PutT(t, s.T(t).(prio := p)), t, t == s.active, m);
    ListQuiet(s.PutT(t, s.T(t).(prio := p)), t, m);
  }

  lemma {:induction false} PriChangeQuiet(s: State, t: Tid, p: nat, m: Oid)
    ensures Quiet(s, PriChange(s, t, p), m)
    decreases if p > s.T(t).prio then 1 else 0,
              if p > s.T(t).prio then |UpTo(s, s.T(t).prio)| else |Below(s, p)|
  {
    hide SetPrio, Look, Quiet;
    if t !in s.tasks || !s.tasks[t].Live() || s.tasks[t].prio == p {
      QuietRefl(s, m);
    } else {
      var s1 := SetPrio(s, t, p);
      SetPrioFrame(s, t, p);
      SetPrioShrinks(s, t, p);
      SetPrioQuiet(s, t, p, m);
      match NextOwner(s, t)
      case None =>
      case Some(o) =>
        if s1.T(o).prio > p {
          PriChangeQuiet(s1, o, p, m);
          QuietTrans(s, s1, PriChange(s1, o, p), m);
        } else if s1.T(o).prio == s.tasks[t].prio && Look(s1, o) != s1.T(o).prio {
          PriChangeQuiet(s1, o, Look(s1, o), m);
          QuietTrans(s, s1, PriChange(s1, o, Look(s1, o)), m);
        }
    }
  }

  lemma QuietRefl(s: State, m: Oid)
    ensures Quiet(s, s, m)
  {
  }

  lemma RelookQuiet(s: State, o: Tid, m: Oid)
    ensures Quiet(s, Relook(s, o), m)
  {
    hide PriChange, Look;
    PriChangeQuiet(s, o, Look(s, o), m);
  }

  lemma ResetQuiet(s: State, t: Tid, m: Oid)
    ensures Quiet(s, Reset(s, t), m)
  {
    hide Relook;
    var k := s.T(t);
    if k.blkObj.Some? && s.O(k.blkObj.value).owner.Some? { RelookQuiet(s, s.O(k.blkObj.value).owner.value, m); }
  }

  lemma EndQuiet(s: State, t: Tid, why: BlkState, toReady: bool, m: Oid)
    ensures Quiet(s, ClearBlk(Reset(Unblock(s, t, why, toReady), t), t), m)
  {
    hide Unblock, Reset;
    UnblockQuiet(s, t, why, toReady, m);
    ResetQuiet(Unblock(s, t, why, toReady), t, m);
  }

  lemma ExpireQuiet(s: State, t: Tid, m: Oid)
    ensures Quiet(s, Expire(s, t), m)
  {
    hide Unblock, Reset, TickRm, ReadyAdd;
    EndQuiet(s, t, BlkTimeout, s.T(t).state == Pend, m);
    ListQuiet(s, t, m);
    var s1 := TickRm(s, t);
    ReadyQuiet(s1.PutT(t, s1.T(t).(state := Rdy, blkState := BlkFinish)), t, false, m);
  }

  lemma {:induction false} DrainQuiet(s: State, q: seq<Tid>, m: Oid)
    ensures Quiet(s, Drain(s, q), m)
    decreases |q|
  {
    hide Expire, Due;
    if q != [] && Due(s, q[0]) {
      ExpireQuiet(s, q[0], m);
      DrainQuiet(Expire(s, q[0]), q[1..], m);
    }
  }

  lemma HandOverQuiet(s: State, o: Oid, nested: nat, m: Oid)
    requires o != m
    ensures Quiet(s, HandOver(s, o, nested), m)
  {
    hide Wakeup;
    if s.O(o).waiters != [] { WakeupQuiet(s, s.O(o).waiters[0], BlkFinish, m); }
  }

  lemma DropQuiet(s: State, t: Tid, o: Oid, m: Oid)
    requires o != m
    ensures Quiet(s, Drop(s, t, o), m)
  {
    hide Remove, Successor;
  }

  lemma {:induction false} FreeMutexesQuiet(s: State, t: Tid, ms: seq<Oid>, m: Oid)
    requires m !in ms
    ensures Quiet(s, FreeMutexes(s, t, ms), m)
    decreases |ms|
  {
    hide Drop, HandOver;
    if ms != [] {
      var s1 := Drop(s, t, ms[0]);
      DropQuiet(s, t, ms[0], m);
      HandOverQuiet(s1, ms[0], s.O(ms[0]).nested, m);
      FreeMutexesQuiet(HandOver(s1, ms[0], s.O(ms[0]).nested), t, ms[1..], m);
    }
  }

  lemma DepartQuiet(s: State, t: Tid, m: Oid)
    ensures Quiet(s, Depart(s, t), m)
  {
    hide Unpend, TickRm, ReadyRm, Quiet;
    QuietRefl(s, m);
    ReadyQuiet(s, t, false, m);
    ListQuiet(s, t, m);
    ListQuiet(TickRm(s, t), t, m);
    QuietTrans(s, TickRm(s, t), Unpend(TickRm(s, t), t), m);
    var s1 := match s.T(t).state
              case Rdy => ReadyRm(s, t)
              case Sleep | SleepSuspended => TickRm(s, t)
              case Pend | PendSuspended => Unpend(TickRm(s, t), t)
              case Suspended | Deleted => s;
    MarkQuiet(s1, t, m);
    QuietTrans(s, s1, s1.PutT(t, s1.T(t).(state := Deleted)), m);
  }

  lemma MarkQuiet(s: State, t: Tid, m: Oid)
    ensures Quiet(s, s.PutT(t, s.T(t).(state := Deleted)), m)
  {
  }

  lemma BuryQuiet(s: State, t: Tid, m: Oid)
    ensures Quiet(s, Bury(s, t), m)
  {
    hide Depart, Reset;
    DepartQuiet(s, t, m);
    ResetQuiet(Depart(s, t), t, m);
  }

  // ---- whole calls --------------------------------------------------------------------------

  /** m is held by the same task, equally often. */
  ghost predicate SameHolder(s: State, s1: State, m: Oid) {
    s1.O(m).owner == s.O(m).owner && s1.O(m).nested == s.O(m).nested && s1.O(m).kind == s.O(m).kind
  }

  /** A quiet step, and then scheduling. */
  lemma QuietHolds(s: State, s1: State, m: Oid)
    requires Quiet(s, s1, m)
    ensures SameHolder(s, s1, m) && SameHolder(s, CoreSched(s1), m)
  {
  }

  lemma LockHolder(s: State, o: Oid, ticks: nat, m: Oid)
    requires s.O(m).owner.Some? && (o == m ==> s.nesting > 0 || s.O(m).owner != Some(s.active))
    ensures SameHolder(s, MutexLock(s, o, ticks).0, m)
  {
    hide PriChange, Block, CoreSched;
    var b := s.O(o);
    if s.nesting == 0 && b.kind == Mutex && b.owner.Some? && b.owner != Some(s.active) && ticks != NO_WAIT && s.schedLock == 0 {
      var p := s.T(s.active).prio;
      var s1 := if p < s.T(b.owner.value).prio then PriChange(s, b.owner.value, p) else s;
      PriChangeQuiet(s, b.owner.value, p, m);
      BlockQuiet(s1, o, s.active, ticks, m);
      QuietTrans(s, s1, Block(s1, o, s.active, ticks), m);
      QuietHolds(s, Block(s1, o, s.active, ticks), m);
    }
  }

  lemma UnlockHolder(s: State, o: Oid, m: Oid)
    requires o == m ==> s.nesting > 0 || s.O(m).owner != Some(s.active)
    ensures SameHolder(s, MutexUnlock(s, o).0, m)
  {
    hide Drop, Relook, HandOver, CoreSched, Quiet;
    var b := s.O(o);
    if s.nesting == 0 && b.kind == Mutex && b.owner == Some(s.active) {
      var s0 := s.PutO(o, b.(nested := 0));
      var d := Drop(s0, s.active, o);
      var s1 := Relook(d, s.active);
      PutQuiet(s, o, b.(nested := 0), m);
      DropQuiet(s0, s.active, o, m);
      RelookQuiet(d, s.active, m);
      HandOverQuiet(s1, o, 1, m);
      QuietTrans(s, s0, d, m);
      QuietTrans(s, d, s1, m);
      QuietTrans(s, s1, HandOver(s1, o, 1), m);
      QuietHolds(s, HandOver(s1, o, 1), m);
    }
  }

  lemma PutQuiet(s: State, o: Oid, b: Obj, m: Oid)
    requires o != m
    ensures Quiet(s, s.PutO(o, b), m)
  {
  }

  lemma WakeOffQuiet(s: State, q: seq<Tid>, m: Oid)
    ensures SameHolder(s, CoreSched(WakeAll(s, q, BlkDel)), m)
  {
    hide WakeAll, CoreSched;
    WakeAllQuiet(s, q, BlkDel, m);
    QuietHolds(s, WakeAll(s, q, BlkDel), m);
  }

  lemma DelMutexHolder(s: State, o: Oid, m: Oid)
    requires o != m
    ensures SameHolder(s, MutexDel(s, o).0, m)
  {
    hide Drop, Relook, WakeAll, CoreSched;
    var s1 := s.PutO(o, s.O(o).(kind := NoKind));
    match s.O(o).owner {
      case None => WakeOffQuiet(s1, s1.O(o).waiters, m);
      case Some(u) =>
        var d := Drop(s1, u, o);
        DropQuiet(s1, u, o, m);
        RelookQuiet(d, u, m);
        WakeOffQuiet(Relook(d, u), Relook(d, u).O(o).waiters, m);
    }
  }

  lemma PriHolder(s: State, t: Tid, pri: nat, m: Oid)
    ensures SameHolder(s, TaskPriChange(s, t, pri).0, m)
  {
    hide PriChange, CoreSched, MinFirst;
    var limit := MinFirst(s, s.T(t).mutexes, pri);
    var s1 := s.PutT(t, s.T(t).(bPrio := pri));
    PriChangeQuiet(s1, t, limit, m);
    QuietHolds(s1, PriChange(s1, t, limit), m);
  }

  lemma SuspendHolder(s: State, t: Tid, m: Oid)
    ensures SameHolder(s, TaskSuspend(s, t).0, m)
  {
    hide ReadyRm;
    ReadyQuiet(s.PutT(t, s.T(t).(suspends := 1, state := Suspended)), t, false, m);
  }

  lemma ResumeHolder(s: State, t: Tid, m: Oid)
    ensures SameHolder(s, TaskResume(s, t).0, m)
  {
    hide ReadyAdd;
    ReadyQuiet(s.PutT(t, s.T(t).(suspends := 0, state := Rdy)), t, false, m);
  }

  lemma SleepHolder(s: State, ticks: nat, m: Oid)
    ensures SameHolder(s, TaskSleep(s, ticks).0, m)
  {
    hide ReadyRm, TickInsert;
    var s0 := s.PutT(s.active, s.T(s.active).(state := Sleep));
    InsertQuiet(s0, s.active, ticks, m);
    ReadyQuiet(TickInsert(s0, s.active, ticks), s.active, false, m);
  }

  lemma AbortHolder(s: State, t: Tid, m: Oid)
    ensures SameHolder(s, TaskWaitAbort(s, t).0, m)
  {
    hide ReadyAdd, TickRm, Unblock, Reset, CoreSched;
    var k := s.T(t);
    QuietRefl(s, m);
    QuietHolds(s, s, m);
    ListQuiet(s, t, m);
    match k.state {
      case Suspended =>
        var a := s.PutT(t, k.(state := Rdy));
        ReadyQuiet(a, t, false, m);
        QuietHolds(s, ReadyAdd(a, t, false), m);
      case Sleep | SleepSuspended =>
        var s1 := TickRm(s, t);
        var a := s1.PutT(t, s1.T(t).(state := Rdy, blkState := BlkAbort));
        ReadyQuiet(a, t, false, m);
        QuietHolds(s, ReadyAdd(a, t, false), m);
      case Pend | PendSuspended =>
        EndQuiet(s, t, BlkAbort, true, m);
        QuietHolds(s, ClearBlk(Reset(Unblock(s, t, BlkAbort, true), t), t), m);
      case _ =>
    }
  }

  lemma ObjHolder(s: State, c: Call, m: Oid)
    requires s.O(m).kind == Mutex && (c.PendOn? || c.Wake? || c.DelObj?)
    ensures SameHolder(s, Exec(s, c), m)
  {
    hide Block, Wakeup, WakeAll, CoreSched;
    QuietRefl(s, m);
    match c {
      case PendOn(o, ticks) =>
        BlockQuiet(s, o, s.active, ticks, m);
        QuietHolds(s, Block(s, o, s.active, ticks), m);
      case Wake(o, t) =>
        WakeupQuiet(s, t, BlkFinish, m);
        QuietHolds(s, Wakeup(s, t, BlkFinish), m);
      case DelObj(o) =>
        var s1 := s.PutO(o, s.O(o).(kind := NoKind));
        WakeOffQuiet(s1, s1.O(o).waiters, m);
    }
  }

  lemma TimeHolder(s: State, c: Call, m: Oid)
    requires c.Tick? || c.Slice? || c.Yield? || c.Enter? || c.Exit? || c.Disable? || c.Enable?
    ensures SameHolder(s, Exec(s, c), m)
  {
    hide Drain;
    if c.Tick? { DrainQuiet(s.(now := (s.now + c.n) % TICK_SPAN), s.ticks, m); }
  }

  /** Deleting a task that does not hold m. */
  lemma DelTaskHolder(s: State, which: Option<Tid>, m: Oid)
    requires Inv(s) && Enabled(s, DelTask(which)) && m in s.objs && s.objs[m].kind == Mutex
    requires s.objs[m].owner != Some(if which.Some? then which.value else s.active)
    ensures SameHolder(s, TaskDel(s, which).0, m)
  {
    hide Inv, CoreSched, FreeMutexes, Bury, StaleSafe, FreeStale, StaleList, Disowned, Epitaph, TaskDel, DelRefused;
    var t := if which.Some? then which.value else s.active;
    TaskDelIs(s, which);
    if !DelRefused(s, t) {
      if s.T(t).Live() {
        var ms := s.T(t).mutexes;
        NotAmong(s, t, m);
        var s1 := FreeMutexes(s, t, ms);
        FreeMutexesQuiet(s, t, ms, m);
        BuryQuiet(s1, t, m);
        QuietTrans(s, s1, Bury(s1, t), m);
        EpitaphQuiet(Bury(s1, t), t, ms, m);
        QuietTrans(s, Bury(s1, t), Epitaph(Bury(s1, t), t, ms), m);
        QuietHolds(s, Epitaph(Bury(s1, t), t, ms), m);
      } else {
        StaleAllowed(s, which, t);
        StaleKeeps(s, t);
        DisownedHolder(s, FreeStale(s, StaleList(s, t)), m);
      }
    }
  }

  lemma NotAmong(s: State, t: Tid, m: Oid)
    requires Inv(s) && s.T(t).Live() && m in s.objs && s.objs[m].owner != Some(t)
    ensures m !in s.T(t).mutexes
  {
    hide WaitsOk, SortedOk, ReadyOk, TicksOk, TasksOk, PiOk, ActiveOk, NoneWaits, LinksOk, MutexesOk, NoDup;
  }

  lemma EpitaphQuiet(s: State, t: Tid, ms: seq<Oid>, m: Oid)
    ensures Quiet(s, Epitaph(s, t, ms), m)
  {
  }

  lemma DisownedHolder(s: State, s1: State, m: Oid)
    requires Disowned(s, s1) && m in s.objs && s.objs[m].kind == Mutex
    ensures SameHolder(s, s1, m)
  {
  }

  // ---- counting -----------------------------------------------------------------------------

  /** t itself locks or unlocks m. */
  predicate Counts(s: State, c: Call, t: Tid, m: Oid) {
    s.nesting == 0 && s.active == t && ((c.Lock? && c.m == m) || (c.Unlock? && c.m == m))
  }

  /** m is deleted, or t is. */
  predicate Ends(s: State, c: Call, t: Tid, m: Oid) {
    c == DelMutex(m) || (c.DelTask? && t == if c.which.Some? then c.which.value else s.active)
  }

  /** Of all that may happen only locking and unlocking by t itself changes how often t
      holds m. */
  lemma OnlyOwnerCounts(s: State, c: Call, t: Tid, m: Oid)
    requires Inv(s) && Enabled(s, c) && m in s.objs && s.objs[m].kind == Mutex && s.objs[m].owner == Some(t)
    requires !Counts(s, c, t, m) && !Ends(s, c, t, m)
    ensures SameHolder(s, Exec(s, c), m)
  {
    hide Inv, MutexLock, MutexUnlock, MutexDel, TaskPriChange, TaskSuspend, TaskResume, TaskSleep, TaskYield,
      TaskWaitAbort, TaskDel, ObjPend, ObjWake, ObjDel, TickUpdate, TimeSlice, IntrptEnter, IntrptExit, SchedDisable, SchedEnable, SameHolder;
    match c {
      case Lock(o, ticks) => LockHolder(s, o, ticks, m);
      case Unlock(o) => UnlockHolder(s, o, m);
      case DelMutex(o) => DelMutexHolder(s, o, m);
      case ChangePri(u, pri) => PriHolder(s, u, pri, m);
      case SuspendTask(u) => SuspendHolder(s, u, m);
      case ResumeTask(u) => ResumeHolder(s, u, m);
      case SleepFor(ticks) => SleepHolder(s, ticks, m);
      case WaitAbort(u) => AbortHolder(s, u, m);
      case DelTask(which) => DelTaskHolder(s, which, m);
      case PendOn(_, _) => ObjHolder(s, c, m);
      case Wake(_, _) => ObjHolder(s, c, m);
      case DelObj(_) => ObjHolder(s, c, m);
      case _ => TimeHolder(s, c, m);
    }
  }

  /** Locking a mutex again adds one to its count and changes nothing else; at the largest
      count it is refused. */
  lemma LockAgain(s: State, m: Oid, ticks: nat)
    requires s.nesting == 0 && m in s.objs && s.objs[m].kind == Mutex && s.objs[m].owner == Some(s.active)
    ensures s.objs[m].nested < 0xFFFF_FFFF ==>
      MutexLock(s, m, ticks) == (s.(objs := s.objs[m := s.objs[m].(nested := s.objs[m].nested + 1)]), MutexOwnerNested)
    ensures s.objs[m].nested == 0xFFFF_FFFF ==> MutexLock(s, m, ticks) == (s, MutexNestedOvf)
  {
  }

  /** Unlocking a mutex held more than once takes one off and changes nothing else. */
  lemma UnlockOne(s: State, m: Oid)
    requires s.nesting == 0 && m in s.objs && s.objs[m].kind == Mutex && s.objs[m].owner == Some(s.active)
    requires 1 < s.objs[m].nested <= 0xFFFF_FFFF
    ensures MutexUnlock(s, m) == (s.(objs := s.objs[m := s.objs[m].(nested := s.objs[m].nested - 1)]), MutexOwnerNested)
  {
    hide CoreSched, Relook, Drop, HandOver;
  }

  /** Unlocking a mutex held once gives it up: to the first waiter, or to nobody. */
  lemma UnlockLast(s: State, m: Oid)
    requires Inv(s) && s.nesting == 0 && m in s.objs && s.objs[m].kind == Mutex && s.objs[m].owner == Some(s.active)
    requires s.objs[m].nested == 1
    ensures MutexUnlock(s, m).1 == Success
    ensures MutexUnlock(s, m).0.O(m).owner == if s.objs[m].waiters == [] then None else Some(s.objs[m].waiters[0])
    ensures MutexUnlock(s, m).0.O(m).owner != Some(s.active)
  {
    OwnerNotWaiting(s, m);
    UnlockStatus(s, m);
    if s.objs[m].waiters != [] { UnlockSuccessor(s, m); } else { UnlockFree(s, m); }
  }

  lemma OwnerNotWaiting(s: State, m: Oid)
    requires Inv(s) && m in s.objs && s.objs[m].kind == Mutex && s.objs[m].owner.Some?
    ensures s.objs[m].owner.value !in s.objs[m].waiters
  {
    hide WaitsOk, SortedOk, ReadyOk, TicksOk, TasksOk, PiOk, ActiveOk, NoneWaits, LinksOk, HoldsOk;
    assert MutexOk(s, m, false);
  }

  lemma UnlockStatus(s: State, m: Oid)
    requires s.nesting == 0 && s.O(m).kind == Mutex && s.O(m).owner == Some(s.active) && s.O(m).nested == 1
    ensures MutexUnlock(s, m).1 == Success
  {
    hide CoreSched, Relook, Drop, HandOver;
  }

  lemma UnlockFree(s: State, m: Oid)
    requires Inv(s) && s.nesting == 0 && m in s.objs && s.objs[m].kind == Mutex && s.objs[m].owner == Some(s.active)
    requires s.objs[m].nested == 1 && s.objs[m].waiters == []
    ensures MutexUnlock(s, m).0.O(m).owner == None
  {
    hide Inv, Relook, Drop, CoreSched, Released, Base, PiOk;
    UnlockThereFree(s, m);
  }

  lemma UnlockThereFree(s: State, m: Oid)
    requires Inv(s) && s.nesting == 0 && m in s.objs && s.objs[m].kind == Mutex && s.objs[m].owner == Some(s.active)
    requires s.objs[m].waiters == []
    ensures Relook(Drop(s.PutO(m, s.objs[m].(nested := 0)), s.active, m), s.active).O(m).waiters == []
  {
    hide Base, PiOk, NoneWaits, Relook, Remove, Steady, Released, Drop, OwnsOk, WaitsOk, TicksOk, ActiveOk;
    RunnerFacts(s);
    OwnedHere(s, m);
    UnlockRelease(s, m, s.active);
  }

  /** How often t holds m after a call, by what t does; 0 once it has given m up. */
  function Counted(s: State, c: Call, t: Tid, m: Oid, n: nat): nat {
    if n == 0 || !Counts(s, c, t, m) then n
    else if c.Unlock? then n - 1
    else if n < 0xFFFF_FFFF then n + 1 else n
  }

  function CountedRun(s: State, cs: seq<Call>, t: Tid, m: Oid, n: nat): nat
    decreases |cs|
  {
    if cs == [] then n else CountedRun(Exec(s, cs[0]), cs[1..], t, m, Counted(s, cs[0], t, m, n))
  }

  /** Neither m nor t is deleted. */
  predicate Spared(s: State, cs: seq<Call>, t: Tid, m: Oid)
    decreases |cs|
  {
    cs == [] || (!Ends(s, cs[0], t, m) && Spared(Exec(s, cs[0]), cs[1..], t, m))
  }

  lemma CountStep(s: State, c: Call, t: Tid, m: Oid)
    requires Inv(s) && Enabled(s, c) && !Ends(s, c, t, m)
    requires m in s.objs && s.objs[m].kind == Mutex && s.objs[m].owner == Some(t) && 1 <= s.objs[m].nested <= 0xFFFF_FFFF
    ensures var s1, n := Exec(s, c), Counted(s, c, t, m, s.objs[m].nested);
      && (n > 0 ==> m in s1.objs && s1.objs[m].kind == Mutex && s1.objs[m].owner == Some(t) && s1.objs[m].nested == n <= 0xFFFF_FFFF)
      && (n == 0 ==> s1.O(m).owner != Some(t))
  {
    hide Inv, Enabled, MutexLock, MutexUnlock, MutexDel, TaskPriChange, TaskSuspend, TaskResume, TaskSleep, TaskYield,
      TaskWaitAbort, TaskDel, ObjPend, ObjWake, ObjDel, TickUpdate, TimeSlice, IntrptEnter, IntrptExit, SchedDisable, SchedEnable, Ends;
    if !Counts(s, c, t, m) {
      OnlyOwnerCounts(s, c, t, m);
      Exists(s, Exec(s, c), m);
    } else if c.Lock? {
      LockAgain(s, m, c.ticks);
    } else if s.objs[m].nested > 1 {
      UnlockOne(s, m);
    } else {
      UnlockLast(s, m);
    }
  }

  lemma Exists(s: State, s1: State, m: Oid)
    requires SameHolder(s, s1, m) && m in s.objs && s.objs[m].owner.Some?
    ensures m in s1.objs && s1.objs[m].owner == s.objs[m].owner && s1.objs[m].nested == s.objs[m].nested && s1.objs[m].kind == s.objs[m].kind
  {
  }

  /** Over every run in which neither is deleted, a task holds a mutex as often as it has
      locked it more than unlocked it, and as long as that is not zero. */
  lemma {:induction false} RunCounts(s: State, cs: seq<Call>, s1: State, t: Tid, m: Oid)
    requires Inv(s) && Run(s, cs, s1) && Spared(s, cs, t, m)
    requires m in s.objs && s.objs[m].kind == Mutex && s.objs[m].owner == Some(t) && 1 <= s.objs[m].nested <= 0xFFFF_FFFF
    requires CountedRun(s, cs, t, m, s.objs[m].nested) > 0
    ensures m in s1.objs && s1.objs[m].owner == Some(t) && s1.objs[m].nested == CountedRun(s, cs, t, m, s.objs[m].nested)
    decreases |cs|
  {
    hide Inv, Exec, Enabled, Ends, Counted;
    if cs != [] {
      var s2 := Exec(s, cs[0]);
      ExecInv(s, cs[0]);
      CountStep(s, cs[0], t, m);
      if Counted(s, cs[0], t, m, s.objs[m].nested) == 0 { NoneCounted(s2, cs[1..], t, m); } else { RunCounts(s2, cs[1..], s1, t, m); }
    }
  }

  lemma {:induction false} NoneCounted(s: State, cs: seq<Call>, t: Tid, m: Oid)
    ensures CountedRun(s, cs, t, m, 0) == 0
    decreases |cs|
  {
    hide Exec, Counts;
    if cs != [] { NoneCounted(Exec(s, cs[0]), cs[1..], t, m); }
  }

  // ---- k locks and j unlocks ------------------------------------------------------------------

  function Times(c: Call, k: nat): seq<Call> { if k == 0 then [] else [c] + Times(c, k - 1) }

  lemma {:induction false} RunJoin(s: State, a: seq<Call>, s1: State, b: seq<Call>, s2: State)
    requires Run(s, a, s1) && Run(s1, b, s2)
    ensures Run(s, a + b, s2)
    decreases |a|
  {
    hide Exec, Enabled;
    if a == [] {
      assert a + b == b;
    } else {
      RunJoin(Exec(s, a[0]), a[1..], s1, b, s2);
      assert (a + b)[0] == a[0] && (a + b)[1..] == a[1..] + b;
    }
  }

  /** m with count n, all else as in s. */
  function WithCount(s: State, m: Oid, n: nat): State { s.PutO(m, s.O(m).(nested := n)) }

  /** The running task, which may block, holds m at least once. */
  predicate Holds(s: State, m: Oid) {
    s.nesting == 0 && s.active != IDLE && m in s.objs && s.objs[m].kind == Mutex && s.objs[m].owner == Some(s.active) && 1 <= s.objs[m].nested <= 0xFFFF_FFFF
  }

  lemma {:induction false} LockTimes(s: State, m: Oid, ticks: nat, k: nat)
    requires Holds(s, m) && s.objs[m].nested + k <= 0xFFFF_FFFF
    ensures Run(s, Times(Lock(m, ticks), k), WithCount(s, m, s.objs[m].nested + k))
    decreases k
  {
    hide MutexLock;
    var n := s.objs[m].nested;
    if k == 0 {
      assert WithCount(s, m, n) == s;
    } else {
      var c := Lock(m, ticks);
      LockAgain(s, m, ticks);
      var s1 := WithCount(s, m, n + 1);
      assert Exec(s, c) == s1;
      LockTimes(s1, m, ticks, k - 1);
      assert WithCount(s1, m, n + k) == WithCount(s, m, n + k);
      assert ([c] + Times(c, k - 1))[1..] == Times(c, k - 1);
    }
  }

  lemma {:induction false} UnlockTimes(s: State, m: Oid, j: nat)
    requires Holds(s, m) && j < s.objs[m].nested
    ensures Run(s, Times(Unlock(m), j), WithCount(s, m, s.objs[m].nested - j))
    decreases j
  {
    hide MutexUnlock;
    var n := s.objs[m].nested;
    if j == 0 {
      assert WithCount(s, m, n) == s;
    } else {
      var c := Unlock(m);
      UnlockOne(s, m);
      var s1 := WithCount(s, m, n - 1);
      assert Exec(s, c) == s1;
      UnlockTimes(s1, m, j - 1);
      assert WithCount(s1, m, n - j) == WithCount(s, m, n - j);
      assert ([c] + Times(c, j - 1))[1..] == Times(c, j - 1);
    }
  }

  /** A task that holds a mutex once and locks it k times more still holds it after up to k
      unlocks; k of them restore the state it was in. One more gives the mutex up. */
  lemma NestedLocks(s: State, m: Oid, ticks: nat, k: nat, j: nat)
    requires Inv(s) && Holds(s, m) && s.objs[m].nested == 1 && k < 0xFFFF_FFFF && j <= k
    ensures Run(s, Times(Lock(m, ticks), k) + Times(Unlock(m), j), WithCount(s, m, 1 + k - j))
    ensures WithCount(s, m, 1 + k - j).O(m).owner == Some(s.active)
    ensures Run(s, Times(Lock(m, ticks), k) + Times(Unlock(m), k), s)
    ensures MutexUnlock(s, m).1 == Success && MutexUnlock(s, m).0.O(m).owner != Some(s.active)
  {
    hide Inv, Run, MutexUnlock;
    LockUnlock(s, m, ticks, k, j);
    LockUnlock(s, m, ticks, k, k);
    assert WithCount(s, m, 1) == s;
    UnlockLast(s, m);
  }

  lemma LockUnlock(s: State, m: Oid, ticks: nat, k: nat, j: nat)
    requires Holds(s, m) && s.objs[m].nested == 1 && k < 0xFFFF_FFFF && j <= k
    ensures Run(s, Times(Lock(m, ticks), k) + Times(Unlock(m), j), WithCount(s, m, 1 + k - j))
  {
    hide Run;
    var s1 := WithCount(s, m, 1 + k);
    LockTimes(s, m, ticks, k);
    UnlockTimes(s1, m, j);
    assert WithCount(s1, m, 1 + k - j) == WithCount(s, m, 1 + k - j);
    RunJoin(s, Times(Lock(m, ticks), k), s1, Times(Unlock(m), j), WithCount(s, m, 1 + k - j));
  }
}
