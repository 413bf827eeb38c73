/** The tick list: sorted by remaining time although the counter wraps, so that
    the early stop of `tick_list_update` misses nobody. */
module KernelTicks {
  import opened Options
  import opened Lists
  import opened KernelState
  import opened KernelSteps
  import opened KernelInvariants
  import opened KernelInheritance
  import opened KernelWaits
  import opened KernelMutexes
  import opened KernelHandOver
  import opened KernelBlock
  import opened KernelCalls
  import opened KernelTasks
  import opened KernelDeletion
  import opened KernelRun

  ghost predicate Ordered(s: State, q: seq<Tid>) {
    forall i, j :: 0 <= i < j < |q| ==> Remaining(s, q[i]) <= Remaining(s, q[j])
  }

  /** Sorted by remaining time, everybody due within half the counter range. */
  ghost predicate TickSorted(s: State) {
    && Ordered(s, s.ticks)
    && (forall t :: t in s.ticks ==> 0 < Remaining(s, t) < HALF_SPAN)
  }

  ghost predicate Before(q: seq<Tid>, a: Tid, b: Tid) {
    exists i, j :: 0 <= i < j < |q| && q[i] == a && q[j] == b
  }

  /** q1 keeps the order of q and adds nothing. */
  ghost predicate Sub(q1: seq<Tid>, q: seq<Tid>) {
    && (forall a :: a in q1 ==> a in q)
    && (forall a, b :: Before(q1, a, b) ==> Before(q, a, b))
  }

  /** Nobody's due time changed and nobody joined the tick list. */
  ghost predicate TickRel(s: State, s1: State) {
    && s1.now == s.now && s1.tasks.Keys == s.tasks.Keys
    && (forall t :: t in s.tasks ==> s1.tasks[t].tickMatch == s.tasks[t].tickMatch)
    && Sub(s1.ticks, s.ticks)
  }

  lemma SubTrans(q2: seq<Tid>, q1: seq<Tid>, q: seq<Tid>)
    requires Sub(q2, q1) && Sub(q1, q)
    ensures Sub(q2, q)
  {
    hide Before;
  }

  lemma TickRelTrans(s: State, s1: State, s2: State)
    requires TickRel(s, s1) && TickRel(s1, s2)
    ensures TickRel(s, s2)
  {
    hide Sub;
    SubTrans(s2.ticks, s1.ticks, s.ticks);
  }

  lemma {:induction false} RemoveSub(q: seq<Tid>, x: Tid)
    ensures Sub(Remove(q, x), q)
  {
    if q != [] {
      var r := Remove(q[1..], x);
      RemoveSub(q[1..], x);
      var r1 := Remove(q, x);
      forall a, b | Before(r1, a, b) ensures Before(q, a, b) {
        var i, j :| 0 <= i < j < |r1| && r1[i] == a && r1[j] == b;
        if q[0] == x {
          assert Before(r, a, b);
          BeforeTail(q, a, b);
        } else if i == 0 {
          assert b == r[j - 1] && b in q[1..];
          var k :| 0 <= k < |q[1..]| && q[1..][k] == b;
          assert q[0] == a && q[k + 1] == b;
        } else {
          assert r[i - 1] == a && r[j - 1] == b;
          assert Before(r, a, b);
          BeforeTail(q, a, b);
        }
      }
    }
  }

  lemma BeforeTail(q: seq<Tid>, a: Tid, b: Tid)
    requires q != [] && Before(q[1..], a, b)
    ensures Before(q, a, b)
  {
    var i, j :| 0 <= i < j < |q[1..]| && q[1..][i] == a && q[1..][j] == b;
    assert q[i + 1] == a && q[j + 1] == b;
  }

  lemma TickRelSorted(s: State, s1: State)
    requires TickSorted(s) && TickRel(s, s1) && TicksOk(s)
    ensures TickSorted(s1)
  {
    forall i, j | 0 <= i < j < |s1.ticks| ensures Remaining(s1, s1.ticks[i]) <= Remaining(s1, s1.ticks[j]) {
      var a, b := s1.ticks[i], s1.ticks[j];
      assert Before(s1.ticks, a, b);
      assert a in s.ticks && b in s.ticks;
      var i', j' :| 0 <= i' < j' < |s.ticks| && s.ticks[i'] == a && s.ticks[j'] == b;
      assert Remaining(s, s.ticks[i']) <= Remaining(s, s.ticks[j']);
    }
    forall t | t in s1.ticks ensures 0 < Remaining(s1, t) < HALF_SPAN {
      assert t in s.ticks;
    }
  }

  // ---- building blocks ------------------------------------------------------------------

  lemma RemoveRel(s: State, s1: State, t: Tid)
    requires s1.now == s.now && s1.tasks.Keys == s.tasks.Keys && s1.ticks == Remove(s.ticks, t)
    requires forall u :: u in s.tasks ==> s1.tasks[u].tickMatch == s.tasks[u].tickMatch
    ensures TickRel(s, s1)
  {
    RemoveSub(s.ticks, t);
  }

  /** The tick list itself is untouched. */
  lemma SameRel(s: State, s1: State)
    requires s1.now == s.now && s1.tasks.Keys == s.tasks.Keys && s1.ticks == s.ticks
    requires forall u :: u in s.tasks ==> s1.tasks[u].tickMatch == s.tasks[u].tickMatch
    ensures TickRel(s, s1)
  {
  }

  lemma PriChangeRel(s: State, t: Tid, p: nat)
    requires WaitsOk(s)
    ensures TickRel(s, PriChange(s, t, p))
  {
    hide WaitsOk, PriChange;
    PriChangeOnly(s, t, p);
    SameRel(s, PriChange(s, t, p));
  }

  lemma WakeupRel(s: State, t: Tid, why: BlkState)
    requires WaitsOk(s) && TicksOk(s) && t in s.tasks && s.tasks[t].Waiting()
    ensures TickRel(s, Wakeup(s, t, why))
  {
    WakeupShape(s, t, why);
    UnblockShape(s, t, why, s.tasks[t].state == Pend);
    hide WaitsOk, TicksOk, Unblock;
    RemoveRel(s, Wakeup(s, t, why), t);
  }

  lemma BaseLists(s: State, rel: Option<Oid>)
    requires Base(s, rel)
    ensures WaitsOk(s) && TicksOk(s) && s.active in s.tasks
  {
    hide SortedOk, ReadyOk, OwnsOk;
  }

  lemma {:induction false} WakeAllRel(s: State, o: Oid, q: seq<Tid>)
    requires Base(s, None) && PiOk(s, None) && o in s.objs && s.objs[o].kind != Mutex && s.objs[o].waiters == q
    ensures TickRel(s, WakeAll(s, q, BlkDel))
    decreases |q|
  {
    if q == [] {
      SameRel(s, s);
    } else {
      var w := q[0];
      BaseLists(s, None);
      assert w in q;
      WaiterOf(s, o, w);
      NoDupWaiters(s, o);
      RemoveHead(q);
      hide Base, PiOk, Wakeup, Remove, WaitsOk, TicksOk, TickRel, Calm;
      WakeupShape(s, w, BlkDel);
      WakeupPi(s, w, BlkDel, None, None);
      WakeupRel(s, w, BlkDel);
      WakeAllRel(Wakeup(s, w, BlkDel), o, q[1..]);
      TickRelTrans(s, Wakeup(s, w, BlkDel), WakeAll(Wakeup(s, w, BlkDel), q[1..], BlkDel));
    }
  }

  lemma HandOverRel(s: State, m: Oid, nested: nat)
    requires Released(s, m)
    ensures TickRel(s, HandOver(s, m, nested))
  {
    hide Base, Remove, Wakeup, WaitsOk, TicksOk, TickRel;
    var q := s.objs[m].waiters;
    if q == [] {
      SameRel(s, HandOver(s, m, nested));
    } else {
      WaiterFacts(s, m, Some(m));
      WakeupRel(s, q[0], BlkFinish);
      WakeupShape(s, q[0], BlkFinish);
      TakeRel(Wakeup(s, q[0], BlkFinish), m, q[0], nested);
      TickRelTrans(s, Wakeup(s, q[0], BlkFinish), HandOver(s, m, nested));
    }
  }

  lemma TakeRel(s: State, m: Oid, t: Tid, nested: nat)
    requires t in s.tasks
    ensures TickRel(s, Take(s, m, t, nested))
  {
    SameRel(s, Take(s, m, t, nested));
  }

  lemma {:induction false} FreeAllRel(s: State, t: Tid, ms: seq<Oid>)
    requires Base(s, None) && PiOk(s, Some(t)) && t in s.tasks && s.tasks[t].Live() && s.tasks[t].mutexes == ms
    ensures TickRel(s, FreeMutexes(s, t, ms))
    decreases |ms|
  {
    hide Base, PiOk, HandOver, Remove, Steady, OwnsOk, TickRel;
    if ms == [] {
      SameRel(s, s);
    } else {
      var s0 := Drop(s, t, ms[0]);
      var s1 := HandOver(s0, ms[0], s.O(ms[0]).nested);
      HeldFacts(s, t, ms[0]);
      DropBase(s, t, ms[0]);
      DropOwns(s, t, ms[0]);
      FreeStep(s, t, ms[0]);
      HandOverFrame(s0, ms[0], s.O(ms[0]).nested, t);
      HeldNoDup(s, t);
      RemoveHead(ms);
      SteadyTasks(s, s1);
      SameRel(s, s0);
      HandOverRel(s0, ms[0], s.O(ms[0]).nested);
      TickRelTrans(s, s0, s1);
      FreeAllRel(s1, t, ms[1..]);
      TickRelTrans(s, s1, FreeMutexes(s1, t, ms[1..]));
    }
  }

  lemma BuryRel(s: State, t: Tid)
    requires Base(s, None) && PiOk(s, Some(t)) && t in s.tasks && s.tasks[t].Live() && t != IDLE && s.tasks[t].mutexes == []
    ensures TickRel(s, Bury(s, t))
  {
    hide Base, PiOk, Depart, Reset, Remove, BuryFrame, PrioOnly, WaitsOk, TicksOk, Left, TickRel, PiBut;
    var s1 := Depart(s, t);
    BuryTokens(s);
    DepartShape(s, t);
    RemoveRel(s, s1, t);
    if s.tasks[t].Waiting() {
      DepartBase(s, t);
      BuryLeft(s, t);
      LeavePiBut(s, s1, t, Some(t));
      ResetFrom(s, s1, t);
      PrioOnlyRel(s1, Reset(s1, t));
      TickRelTrans(s, s1, Reset(s1, t));
    }
  }

  lemma PrioOnlyRel(s: State, s1: State)
    requires PrioOnly(s, s1)
    ensures TickRel(s, s1)
  {
    SameRel(s, s1);
  }

  lemma EndWaitRel(s: State, t: Tid, why: BlkState, toReady: bool)
    requires Base(s, None) && PiOk(s, None) && t in s.tasks && s.tasks[t].Waiting()
    requires !toReady ==> s.tasks[t].state == PendSuspended
    ensures TickRel(s, ClearBlk(Reset(Unblock(s, t, why, toReady), t), t))
  {
    hide Base, PiOk, Unblock, Reset, ClearBlk, Remove;
    EndWaitShape(s, t, why, toReady);
    EndWaitRecord(s, t, why, toReady);
    EndWaitNow(s, t, why, toReady);
    RemoveRel(s, ClearBlk(Reset(Unblock(s, t, why, toReady), t), t), t);
  }

  // ---- the routines that put nobody on the tick list -----------------------------------------

  lemma SchedRel(s: State, s1: State)
    requires TickRel(s, s1)
    ensures TickRel(s, CoreSched(s1))
  {
  }

  lemma UnlockRel(s: State, m: Oid)
    requires Inv(s)
    ensures TickRel(s, MutexUnlock(s, m).0)
  {
    hide Base, PiOk, NoneWaits, CoreSched, HandOver, Relook, Remove, Steady, Released, TickRel, ActiveOk;
    var b := s.O(m);
    SameRel(s, s);
    if s.nesting == 0 && b.kind == Mutex && b.owner == Some(s.active) {
      var n := (b.nested - 1) % (NESTED_MAX + 1);
      var t := s.active;
      RunnerFacts(s);
      MutexFacts(s, m);
      hide OwnsOk, WaitsOk;
      if n > 0 {
        SameRel(s, MutexUnlock(s, m).0);
      } else {
        UnlockRelease(s, m, t);
        var s1 := Relook(Drop(s.PutO(m, b.(nested := 0)), t, m), t);
        RelookRel(s, m, t);
        HandOverRel(s1, m, 1);
        TickRelTrans(s, s1, HandOver(s1, m, 1));
        SchedRel(s, HandOver(s1, m, 1));
      }
    }
  }

  lemma RelookRel(s: State, m: Oid, t: Tid)
    requires Base(s, None) && t in s.tasks && s.tasks[t].state == Rdy && m in s.tasks[t].mutexes
    ensures TickRel(s, Relook(Drop(s.PutO(m, s.O(m).(nested := 0)), t, m), t))
  {
    hide Base, Remove, Look, SetPrio, TickRel, OwnsOk;
    var s1 := Drop(s.PutO(m, s.O(m).(nested := 0)), t, m);
    HeldFacts(s, t, m);
    BaseLists(s, None);
    SameRel(s, s1);
    WaitsNested(s, s1);
    hide WaitsOk;
    PriChangeRel(s1, t, Look(s1, t));
    TickRelTrans(s, s1, PriChange(s1, t, Look(s1, t)));
  }

  lemma WaitsNested(s: State, s1: State)
    requires WaitsOk(s) && s1.tasks.Keys == s.tasks.Keys && s1.objs.Keys == s.objs.Keys
    requires forall u :: u in s.tasks ==> s1.tasks[u].state == s.tasks[u].state && s1.tasks[u].blkObj == s.tasks[u].blkObj
    requires forall o :: o in s.objs ==> s1.objs[o].waiters == s.objs[o].waiters
    ensures WaitsOk(s1)
  {
  }

  lemma RetiredRel(s: State, m: Oid)
    requires Base(s, None) && PiOk(s, None) && m in s.objs && s.objs[m].kind == Mutex
    ensures TickRel(s, Retired(s, m))
  {
    hide Base, PiOk, Remove, Look, PriChange, TickRel, OwnsOk;
    MutexFacts(s, m);
    var s0 := s.PutO(m, s.O(m).(kind := NoKind));
    SameRel(s, s0);
    match s.objs[m].owner {
      case None =>
      case Some(o) =>
        var s1 := Drop(s0, o, m);
        SameRel(s, s1);
        WaitsNested(s, s1);
        hide WaitsOk;
        PriChangeRel(s1, o, Look(s1, o));
        TickRelTrans(s, s1, PriChange(s1, o, Look(s1, o)));
    }
  }

  lemma DelRel(s: State, m: Oid)
    requires Inv(s)
    ensures TickRel(s, MutexDel(s, m).0) && TickRel(s, ObjDel(s, m).0)
  {
    SameRel(s, s);
    hide Base, PiOk, WakeAll, CoreSched, Retired, RetiredFrame, TickRel, Relook, Drop;
    if s.nesting == 0 && s.O(m).kind == Mutex {
      var s2 := Retired(s, m);
      RetiredOk(s, m);
      RetiredRel(s, m);
      RetiredThere(s, s2, m);
      WakeAllRel(s2, m, s2.O(m).waiters);
      TickRelTrans(s, s2, WakeAll(s2, s2.O(m).waiters, BlkDel));
      SchedRel(s, WakeAll(s2, s2.O(m).waiters, BlkDel));
      assert MutexDel(s, m).0 == CoreSched(WakeAll(s2, s2.O(m).waiters, BlkDel)) by { RetiredIs(s, m); }
    }
    if s.nesting == 0 && s.O(m).kind == Other {
      var s1 := s.PutO(m, s.O(m).(kind := NoKind));
      RetiredFree(s, m);
      SameRel(s, s1);
      WakeAllRel(s1, m, s1.O(m).waiters);
      TickRelTrans(s, s1, WakeAll(s1, s1.O(m).waiters, BlkDel));
      SchedRel(s, WakeAll(s1, s1.O(m).waiters, BlkDel));
    }
  }

  lemma RetiredIs(s: State, m: Oid)
    requires s.nesting == 0 && s.O(m).kind == Mutex
    ensures MutexDel(s, m).0 == CoreSched(WakeAll(Retired(s, m), Retired(s, m).O(m).waiters, BlkDel))
  {
  }

  lemma PriRel(s: State, t: Tid, pri: nat)
    requires Inv(s)
    ensures TickRel(s, TaskPriChange(s, t, pri).0)
  {
    SameRel(s, s);
    BaseLists(s, None);
    hide Base, PiOk, PriChange, CoreSched, MinFirst, TickRel;
    if s.T(t).prio < IDLE_PRI && pri < IDLE_PRI && s.T(t).Live() && s.nesting == 0 {
      var s1 := s.PutT(t, s.tasks[t].(bPrio := pri));
      var limit := MinFirst(s, s.T(t).mutexes, pri);
      SameRel(s, s1);
      WaitsNested(s, s1);
      hide WaitsOk;
      PriChangeRel(s1, t, limit);
      TickRelTrans(s, s1, PriChange(s1, t, limit));
      SchedRel(s, PriChange(s1, t, limit));
    }
  }

  lemma SuspendRel(s: State, t: Tid)
    ensures TickRel(s, TaskSuspend(s, t).0)
  {
    hide TickRel, CoreSched, ReadyRm;
    SameRel(s, s);
    if t in s.tasks {
      var k := s.tasks[t];
      var k1 := if k.state == Rdy then k.(suspends := 1, state := Suspended)
                else if k.state == Sleep then k.(suspends := 1, state := SleepSuspended)
                else if k.state == Pend then k.(suspends := 1, state := PendSuspended)
                else k.(suspends := k.suspends + 1);
      var s1 := s.PutT(t, k1);
      ReadyRmFrame(s1, t);
      SameRel(s, s1);
      SameRel(s, ReadyRm(s1, t));
      SchedRel(s, s1);
      SchedRel(s, ReadyRm(s1, t));
    }
  }

  lemma ResumeRel(s: State, t: Tid)
    ensures TickRel(s, TaskResume(s, t).0)
  {
    hide TickRel, CoreSched, ReadyAdd;
    SameRel(s, s);
    if t in s.tasks {
      var k := s.tasks[t];
      var n := (k.suspends - 1) % (SUSPEND_MAX + 1);
      var k1 := if n > 0 then k.(suspends := n)
                else if k.state == Suspended then k.(suspends := 0, state := Rdy)
                else k.(suspends := 0, state := if k.state == SleepSuspended then Sleep else Pend);
      var s1 := s.PutT(t, k1);
      ReadyAddFrame(s1, t, false);
      SameRel(s, s1);
      SameRel(s, ReadyAdd(s1, t, false));
      SchedRel(s, s1);
      SchedRel(s, ReadyAdd(s1, t, false));
    }
  }

  lemma YieldRel(s: State)
    ensures TickRel(s, TaskYield(s).0) && TickRel(s, TimeSlice(s))
  {
    hide TickRel, CoreSched, Rotate;
    SameRel(s, s);
    RotateFrame(s, s.T(s.active).prio);
    SameRel(s, Rotate(s, s.T(s.active).prio));
    SchedRel(s, Rotate(s, s.T(s.active).prio));
  }

  lemma CountersRel(s: State)
    ensures TickRel(s, IntrptEnter(s)) && TickRel(s, IntrptExit(s))
    ensures TickRel(s, SchedDisable(s).0) && TickRel(s, SchedEnable(s).0)
  {
    SameRel(s, s);
    SameRel(s, IntrptEnter(s));
    SameRel(s, IntrptExit(s));
    SameRel(s, SchedDisable(s).0);
    SameRel(s, SchedEnable(s).0);
  }

  lemma ReadyRel(s: State, t: Tid, k1: Task, q: seq<Tid>)
    requires t in s.tasks && k1.tickMatch == s.tasks[t].tickMatch && (q == s.ticks || q == Remove(s.ticks, t))
    ensures TickRel(s, ReadyAdd(s.PutT(t, k1).(ticks := q), t, false))
  {
    hide Remove, ReadyAdd, TickRel;
    var a := s.PutT(t, k1).(ticks := q);
    ReadyAddFrame(a, t, false);
    if q == s.ticks { SameRel(s, ReadyAdd(a, t, false)); } else { RemoveRel(s, ReadyAdd(a, t, false), t); }
  }

  lemma AbortSleepRel(s: State, t: Tid)
    requires Inv(s) && t in s.tasks && s.tasks[t].Sleeping()
    ensures
      var s1 := TickRm(s, t);
      TickRel(s, CoreSched(ReadyAdd(s1.PutT(t, s1.T(t).(state := Rdy, blkState := BlkAbort)), t, false)))
  {
    hide Inv, CoreSched, ReadyAdd, Remove, TickRel;
    TickingIn(s, t);
    var k1 := s.tasks[t].(ticking := false, state := Rdy, blkState := BlkAbort);
    ReadyRel(s, t, k1, Remove(s.ticks, t));
    assert TickRm(s, t).PutT(t, TickRm(s, t).T(t).(state := Rdy, blkState := BlkAbort))
        == s.PutT(t, k1).(ticks := Remove(s.ticks, t));
    SchedRel(s, ReadyAdd(s.PutT(t, k1).(ticks := Remove(s.ticks, t)), t, false));
  }

  lemma AbortPendRel(s: State, t: Tid)
    requires Inv(s) && t in s.tasks && s.tasks[t].Waiting()
    ensures TickRel(s, CoreSched(ClearBlk(Reset(Unblock(s, t, BlkAbort, true), t), t)))
  {
    hide Base, PiOk, NoneWaits, ActiveOk, CoreSched, Unblock, Reset, ClearBlk, TickRel;
    EndWaitRel(s, t, BlkAbort, true);
    SchedRel(s, ClearBlk(Reset(Unblock(s, t, BlkAbort, true), t), t));
  }

  lemma AbortRel(s: State, t: Tid)
    requires Inv(s)
    ensures TickRel(s, TaskWaitAbort(s, t).0)
  {
    hide Inv, CoreSched, ReadyAdd, Remove, Unblock, Reset, ClearBlk, TickRm, TickRel;
    SameRel(s, s);
    SchedRel(s, s);
    if s.nesting == 0 && t in s.tasks {
      var k := s.tasks[t];
      match k.state {
        case Rdy =>
        case Suspended =>
          ReadyRel(s, t, k.(state := Rdy), s.ticks);
          SchedRel(s, ReadyAdd(s.PutT(t, k.(state := Rdy)).(ticks := s.ticks), t, false));
        case Sleep | SleepSuspended => AbortSleepRel(s, t);
        case Pend | PendSuspended => AbortPendRel(s, t);
        case Deleted =>
      }
    }
  }

  lemma DelLiveRel(s: State, t: Tid)
    requires Inv(s) && t in s.tasks && s.tasks[t].prio != IDLE_PRI && s.tasks[t].Live()
    ensures TickRel(s, Bury(FreeMutexes(s, t, s.tasks[t].mutexes), t))
  {
    InvTask(s, t);
    hide Base, PiOk, NoneWaits, FreeMutexes, Bury, Steady, ActiveOk, TickRel;
    var s1 := FreeMutexes(s, t, s.tasks[t].mutexes);
    PiExcept(s, t);
    FreeAll(s, t, s.tasks[t].mutexes);
    FreeAllRel(s, t, s.tasks[t].mutexes);
    SteadyKeys(s, s1);
    BuryRel(s1, t);
    TickRelTrans(s, s1, Bury(s1, t));
  }

  lemma EpitaphRel(s: State, s1: State, t: Tid, ms: seq<Oid>)
    requires TickRel(s, s1) && t in s.tasks
    ensures TickRel(s, Epitaph(s1, t, ms))
  {
    hide Sub;
  }

  lemma DisownedRel(s: State, s1: State)
    requires Disowned(s, s1)
    ensures TickRel(s, s1)
  {
    SameRel(s, s1);
  }

  lemma LiveOrdinary(s: State, t: Tid)
    requires !DelRefused(s, t)
    ensures s.T(t).prio != IDLE_PRI
  {
  }

  lemma TaskDelRel(s: State, which: Option<Tid>)
    requires Inv(s) && Enabled(s, DelTask(which))
    ensures TickRel(s, TaskDel(s, which).0)
  {
    hide Inv, CoreSched, FreeMutexes, Bury, TickRel, Epitaph, StaleSafe, FreeStale, Disowned, StaleList, TaskDel, DelRefused;
    var t := if which.Some? then which.value else s.active;
    SameRel(s, s);
    TaskDelIs(s, which);
    if !DelRefused(s, t) {
      if s.T(t).Live() {
        var ms := s.tasks[t].mutexes;
        LiveOrdinary(s, t);
        DelLiveRel(s, t);
        EpitaphRel(s, Bury(FreeMutexes(s, t, ms), t), t, ms);
        SchedRel(s, Epitaph(Bury(FreeMutexes(s, t, ms), t), t, ms));
      } else {
        StaleAllowed(s, which, t);
        StaleKeeps(s, t);
        DisownedRel(s, FreeStale(s, StaleList(s, t)));
      }
    }
  }

  lemma ObjWakeRel(s: State, o: Oid, t: Tid)
    requires Inv(s)
    ensures TickRel(s, ObjWake(s, o, t).0)
  {
    SameRel(s, s);
    if s.O(o).kind == Other && t in s.O(o).waiters {
      WaiterOf(s, o, t);
      BaseLists(s, None);
      hide Base, PiOk, CoreSched, Wakeup, TickRel, WaitsOk, TicksOk;
      WakeupRel(s, t, BlkFinish);
      SchedRel(s, Wakeup(s, t, BlkFinish));
    }
  }

  // ---- the routines that do ------------------------------------------------------------------

  lemma DueTime(now: nat, val: nat)
    requires val < TICK_SPAN
    ensures ((now + val) % TICK_SPAN - now) % TICK_SPAN == val
  {
    var q := (now + val) / TICK_SPAN;
    assert (now + val) % TICK_SPAN - now == val + (-q) * TICK_SPAN;
  }

  lemma OrderedCons(s: State, x: Tid, r: seq<Tid>)
    requires Ordered(s, r) && forall y :: y in r ==> Remaining(s, x) <= Remaining(s, y)
    ensures Ordered(s, [x] + r)
  {
    hide Remaining;
  }

  lemma OrderedTail(s: State, q: seq<Tid>)
    requires Ordered(s, q) && q != []
    ensures Ordered(s, q[1..]) && forall y :: y in q ==> Remaining(s, q[0]) <= Remaining(s, y)
  {
    hide Remaining;
    assert forall i :: 0 <= i < |q[1..]| ==> q[1..][i] == q[i + 1];
    forall y | y in q ensures Remaining(s, q[0]) <= Remaining(s, y) {
      var j :| 0 <= j < |q| && q[j] == y;
      assert j > 0 ==> Remaining(s, q[0]) <= Remaining(s, q[j]);
    }
  }

  lemma OrderedFrame(s: State, s1: State, q: seq<Tid>)
    requires Ordered(s, q) && forall u :: u in q ==> Remaining(s1, u) == Remaining(s, u)
    ensures Ordered(s1, q)
  {
    hide Remaining;
  }

  lemma {:induction false} InsertTickOrder(s: State, s1: State, q: seq<Tid>, t: Tid, val: nat)
    requires Ordered(s, q)
    requires t !in q && Remaining(s1, t) == val && forall u :: u in q ==> Remaining(s1, u) == Remaining(s, u)
    ensures Ordered(s1, InsertByTick(s, q, t, val))
  {
    hide Remaining, Ordered;
    if q == [] {
      assert InsertByTick(s, q, t, val) == [t];
      OneOrdered(s1, t);
    } else {
      OrderedTail(s, q);
      if Remaining(s, q[0]) <= val {
        forall u | u in q[1..] ensures u in q {}
        InsertTickOrder(s, s1, q[1..], t, val);
        OrderedCons(s1, q[0], InsertByTick(s, q[1..], t, val));
      } else {
        OrderedFrame(s, s1, q);
        OrderedCons(s1, t, q);
      }
    }
  }

  lemma OneOrdered(s: State, t: Tid)
    ensures Ordered(s, [t])
  {
  }

  /** t joins the tick list with a timeout under half the counter range. */
  lemma JoinSorted(s: State, s1: State, t: Tid, val: nat)
    requires TickSorted(s) && t !in s.ticks && 0 < val < HALF_SPAN
    requires s1.now == s.now && s1.ticks == InsertByTick(s, s.ticks, t, val)
    requires s1.T(t).tickMatch == (s.now + val) % TICK_SPAN
    requires forall u :: u in s.ticks ==> s1.T(u).tickMatch == s.T(u).tickMatch
    ensures TickSorted(s1)
  {
    hide InsertByTick, Remaining, Ordered;
    JoinRemaining(s, s1, t, val);
    forall u | u in s.ticks ensures Remaining(s1, u) == Remaining(s, u) { SameRemaining(s, s1, u); }
    InsertTickOrder(s, s1, s.ticks, t, val);
  }

  lemma JoinRemaining(s: State, s1: State, t: Tid, val: nat)
    requires val < TICK_SPAN && s1.now == s.now && s1.T(t).tickMatch == (s.now + val) % TICK_SPAN
    ensures Remaining(s1, t) == val
  {
    DueTime(s.now, val);
  }

  lemma SameRemaining(s: State, s1: State, u: Tid)
    requires s1.now == s.now && s1.T(u).tickMatch == s.T(u).tickMatch
    ensures Remaining(s1, u) == Remaining(s, u)
  {
  }

  lemma BlockTickSorted(s: State, o: Oid, t: Tid, ticks: nat)
    requires TickSorted(s) && t in s.tasks && t !in s.ticks && (ticks < HALF_SPAN || ticks == WAIT_FOREVER)
    ensures TickSorted(Block(s, o, t, ticks))
  {
    hide Block, InsertByTick, InsertByPrio, ReadyRm, Remaining, Ordered;
    BlockShape(s, o, t, ticks);
    var s1 := Block(s, o, t, ticks);
    if ticks == WAIT_FOREVER || ticks == 0 {
      forall u | u in s.ticks ensures Remaining(s1, u) == Remaining(s, u) { RemainingFrame(s, s1, u); }
      OrderedFrame(s, s1, s.ticks);
    } else {
      JoinSorted(s, s1, t, ticks);
    }
  }

  lemma RunnerTicks(s: State)
    requires Inv(s) && s.nesting == 0
    ensures s.active in s.tasks && s.active !in s.ticks && WaitsOk(s) && TicksOk(s)
  {
    hide WaitsOk, SortedOk, OwnsOk, ReadyOk, PiOk, NoneWaits;
  }

  lemma LockSorted(s: State, m: Oid, ticks: nat)
    requires Inv(s) && TickSorted(s) && (ticks < HALF_SPAN || ticks == WAIT_FOREVER)
    ensures TickSorted(MutexLock(s, m, ticks).0) && TickSorted(ObjPend(s, m, ticks).0)
  {
    hide Inv, Block, PriChange, CoreSched, TickRel, TickSorted;
    if s.nesting == 0 {
      RunnerTicks(s);
      var t, b := s.active, s.O(m);
      BlockTickSorted(s, m, t, ticks);
      SchedSorted(Block(s, m, t, ticks));
      CountSorted(s, m, t);
      if b.owner.Some? {
        var s1 := PriChange(s, b.owner.value, s.T(t).prio);
        PriChangeRel(s, b.owner.value, s.T(t).prio);
        TickRelSorted(s, s1);
        TickRelOut(s, s1, t);
        BlockTickSorted(s1, m, t, ticks);
        SchedSorted(Block(s1, m, t, ticks));
        PriChangeOnly(s, b.owner.value, s.T(t).prio);
      }
    }
  }

  lemma TickRelOut(s: State, s1: State, t: Tid)
    requires TickRel(s, s1) && t in s.tasks && t !in s.ticks
    ensures t in s1.tasks && t !in s1.ticks
  {
  }

  lemma SchedSorted(s: State)
    requires TickSorted(s)
    ensures TickSorted(CoreSched(s))
  {
    forall u ensures Remaining(CoreSched(s), u) == Remaining(s, u) {}
    hide Remaining;
    OrderedFrame(s, CoreSched(s), s.ticks);
  }

  /** Bookkeeping of a mutex does not touch the tick list. */
  lemma CountSorted(s: State, m: Oid, t: Tid)
    requires TickSorted(s) && t in s.tasks
    ensures forall b :: TickSorted(s.PutO(m, b))
    ensures TickSorted(Take(s, m, t, 1))
  {
    forall b ensures TickSorted(s.PutO(m, b)) {
      forall u ensures Remaining(s.PutO(m, b), u) == Remaining(s, u) {}
      hide Remaining;
      OrderedFrame(s, s.PutO(m, b), s.ticks);
    }
    forall u ensures Remaining(Take(s, m, t, 1), u) == Remaining(s, u) {}
    hide Remaining;
    OrderedFrame(s, Take(s, m, t, 1), s.ticks);
  }

  lemma SleepSorted(s: State, ticks: nat)
    requires Inv(s) && TickSorted(s) && ticks < HALF_SPAN
    ensures TickSorted(TaskSleep(s, ticks).0)
  {
    if ticks != 0 && s.nesting == 0 && s.schedLock == 0 {
      hide Inv, ReadyRm, CoreSched, InsertByTick, TickInsert, Drowsy;
      RunnerTicks(s);
      DrowsyShape(s, ticks);
      ReadyRmFrame(Drowsy(s, ticks), s.active);
      JoinSorted(s, ReadyRm(Drowsy(s, ticks), s.active), s.active, ticks);
      SchedSorted(ReadyRm(Drowsy(s, ticks), s.active));
      assert TaskSleep(s, ticks).0 == CoreSched(ReadyRm(Drowsy(s, ticks), s.active)) by { SleepIs(s, ticks); }
    }
  }

  lemma SleepIs(s: State, ticks: nat)
    requires ticks != 0 && s.nesting == 0 && s.schedLock == 0
    ensures TaskSleep(s, ticks).0 == CoreSched(ReadyRm(Drowsy(s, ticks), s.active))
  {
  }

  // ---- tick_list_update ----------------------------------------------------------------------

  /** After n more ticks: whoever had more than n left is still to come, in order. */
  lemma Elapsed(s: State, n: nat, t: Tid)
    requires n < HALF_SPAN && 0 < Remaining(s, t) < HALF_SPAN
    ensures
      var s1 := s.(now := (s.now + n) % TICK_SPAN);
      && (Due(s1, t) <==> Remaining(s, t) <= n)
      && (Remaining(s, t) > n ==> Remaining(s1, t) == Remaining(s, t) - n)
      && (Remaining(s, t) <= n ==> Remaining(s1, t) == 0 || Remaining(s1, t) == Remaining(s, t) - n + TICK_SPAN)
  {
    var s1 := s.(now := (s.now + n) % TICK_SPAN);
    var r := Remaining(s, t);
    var d := s.T(t).tickMatch - s.now;
    var q := d / TICK_SPAN;
    var q1 := (s.now + n) / TICK_SPAN;
    assert s.T(t).tickMatch - s1.now == (r - n) + (q + q1) * TICK_SPAN;
    ModShift(r - n, q + q1);
  }

  lemma ModShift(x: int, q: int)
    ensures (x + q * TICK_SPAN) % TICK_SPAN == x % TICK_SPAN
  {
  }

  /** Everybody due is woken, with the right state and reason, and nobody else
      leaves the tick list or changes but for inherited priorities. */
  ghost predicate Drained(s: State, s1: State, q: seq<Tid>, k: nat) {
    && k <= |q| && s1.ticks == q[k..] && s1.now == s.now && s1.tasks.Keys == s.tasks.Keys
    && (forall t :: t in s.tasks && t in q[..k] ==> s1.tasks[t] == Expired(s.tasks[t]).(prio := s1.tasks[t].prio))
    && (forall t :: t in s.tasks && t !in q[..k] ==> s1.tasks[t] == s.tasks[t].(prio := s1.tasks[t].prio))
  }

  /** The number of tasks the loop takes off the list: the due ones at its front. */
  function DueCount(s: State, q: seq<Tid>): (k: nat)
    ensures k <= |q| && (forall i :: 0 <= i < k ==> Due(s, q[i])) && (k < |q| ==> !Due(s, q[k]))
  {
    if q == [] || !Due(s, q[0]) then 0
    else
      var k := DueCount(s, q[1..]);
      assert forall i :: 0 < i < |q| ==> q[i] == q[1..][i - 1];
      k + 1
  }

  lemma {:induction false} DrainExact(s: State, q: seq<Tid>)
    requires Safe(s) && s.ticks == q && NoDup(q)
    ensures Drained(s, Drain(s, q), q, DueCount(s, q))
    decreases |q|
  {
    hide Safe, Expire, Due, Remove, NoDup, ExpiredStep, Expired;
    if q == [] || !Due(s, q[0]) {
      NoneDrained(s, q);
    } else {
      hide Drained;
      var s1 := Expire(s, q[0]);
      DrainStep(s, q);
      DrainExact(s1, q[1..]);
      DrainJoin(s, s1, Drain(s1, q[1..]), q, DueCount(s, q[1..]));
    }
  }

  lemma NoneDrained(s: State, q: seq<Tid>)
    requires s.ticks == q
    ensures Drained(s, s, q, 0)
  {
    assert q[0..] == q;
  }

  lemma DrainStep(s: State, q: seq<Tid>)
    requires Safe(s) && s.ticks == q && NoDup(q) && q != []
    ensures
      var s1 := Expire(s, q[0]);
      Safe(s1) && s1.ticks == q[1..] && NoDup(q[1..]) && ExpiredStep(s, s1, q[0]) && DueCount(s1, q[1..]) == DueCount(s, q[1..])
  {
    hide Safe, Expire, Steady, Due, Remove, NoDup, ExpiredStep;
    var t := q[0];
    var s1 := Expire(s, t);
    ExpireOk(s, t);
    ExpiredTicks(s, s1, t);
    RemoveHead(q);
    NoDupTail(q);
    forall u | u in q[1..] ensures Due(s1, u) <==> Due(s, u) {
      ExpiredDue(s, s1, t, u);
    }
    DueFrame(s, s1, q[1..]);
  }

  lemma ExpiredTicks(s: State, s1: State, t: Tid)
    requires ExpiredStep(s, s1, t)
    ensures s1.ticks == Remove(s.ticks, t)
  {
  }

  lemma ExpiredDue(s: State, s1: State, t: Tid, u: Tid)
    requires ExpiredStep(s, s1, t)
    ensures Due(s1, u) <==> Due(s, u)
  {
  }

  lemma {:induction false} DueFrame(s: State, s1: State, q: seq<Tid>)
    requires forall u :: u in q ==> (Due(s1, u) <==> Due(s, u))
    ensures DueCount(s1, q) == DueCount(s, q)
  {
    hide Due;
    if q != [] { DueFrame(s, s1, q[1..]); }
  }

  lemma DrainJoin(s: State, s1: State, s2: State, q: seq<Tid>, k: nat)
    requires q != [] && ExpiredStep(s, s1, q[0]) && NoDup(q)
    requires Drained(s1, s2, q[1..], k)
    ensures Drained(s, s2, q, k + 1)
  {
    HeadSplit(q, k);
    hide Expired, NoDup;
    forall t | t in s.tasks && t in q[..k + 1] ensures s2.tasks[t] == Expired(s.tasks[t]).(prio := s2.tasks[t].prio) {
      if t != q[0] { ExpiredPrio(s.tasks[t], s1.tasks[t].prio); }
    }
  }

  lemma ExpiredPrio(k: Task, p: nat)
    ensures Expired(k.(prio := p)) == Expired(k).(prio := p)
  {
  }

  lemma HeadSplit(q: seq<Tid>, k: nat)
    requires q != [] && NoDup(q) && k < |q|
    ensures q[1..][k..] == q[k + 1..] && q[0] !in q[1..][..k]
    ensures forall t :: t in q[..k + 1] <==> t == q[0] || t in q[1..][..k]
  {
    NoDupTail(q);
    assert q[..k + 1] == [q[0]] + q[1..][..k];
    assert q[1..][k..] == q[k + 1..];
    forall t ensures t in q[..k + 1] <==> t == q[0] || t in q[1..][..k] {
      assert t in [q[0]] + q[1..][..k] <==> t == q[0] || t in q[1..][..k];
    }
    assert forall i :: 0 <= i < k ==> q[1..][..k][i] == q[1..][i];
  }

  /** `tick_list_update` is exact although it stops at the first task that is not
      due: precisely the tasks whose time is up within n ticks leave the list,
      each with the state and reason of a timeout, and the list stays sorted. */
  lemma TickExact(s: State, n: nat)
    requires Inv(s) && TickSorted(s) && n < HALF_SPAN
    ensures
      var s1 := TickUpdate(s, n);
      && TickSorted(s1)
      && s1.now == (s.now + n) % TICK_SPAN
      && (forall t :: t in s1.ticks <==> t in s.ticks && Remaining(s, t) > n)
      && (forall t :: t in s.tasks ==>
            var k := if t in s.ticks && Remaining(s, t) <= n then Expired(s.tasks[t]) else s.tasks[t];
            t in s1.tasks && s1.tasks[t] == k.(prio := s1.tasks[t].prio))
  {
    hide Safe, Inv, Drain, Due, Drained, Base, PiOk, NoneWaits, ActiveOk, Expired, Remaining;
    var s0 := s.(now := (s.now + n) % TICK_SPAN);
    var q := s.ticks;
    ActiveThere(s);
    NowSafe(s, (s.now + n) % TICK_SPAN);
    TickNoDup(s);
    DrainExact(s0, q);
    forall t | t in q ensures Due(s0, t) <==> Remaining(s, t) <= n { Elapsed(s, n, t); }
    DuePrefix(s, s0, q, n);
    DrainedExact(s, s0, Drain(s0, q), q, DueCount(s0, q), n);
  }

  lemma TickNoDup(s: State)
    requires Inv(s)
    ensures NoDup(s.ticks)
  {
    hide WaitsOk, SortedOk, OwnsOk, ReadyOk, TasksOk, PiOk, NoneWaits;
  }

  /** In a sorted list the due tasks are exactly those the loop reaches. */
  lemma DuePrefix(s: State, s0: State, q: seq<Tid>, n: nat)
    requires Ordered(s, q) && forall t :: t in q ==> (Due(s0, t) <==> Remaining(s, t) <= n)
    ensures forall i :: 0 <= i < |q| ==> (i < DueCount(s0, q) <==> Remaining(s, q[i]) <= n)
  {
    hide Due, Remaining;
    var k := DueCount(s0, q);
    forall i | 0 <= i < |q| ensures i < k <==> Remaining(s, q[i]) <= n {
      assert q[i] in q;
      if i >= k {
        assert q[k] in q;
        assert i > k ==> Remaining(s, q[k]) <= Remaining(s, q[i]);
      }
    }
  }

  lemma DrainedExact(s: State, s0: State, s1: State, q: seq<Tid>, k: nat, n: nat)
    requires TickSorted(s) && q == s.ticks && NoDup(q) && n < HALF_SPAN
    requires s0 == s.(now := (s.now + n) % TICK_SPAN) && Drained(s0, s1, q, k)
    requires forall i :: 0 <= i < |q| ==> (i < k <==> Remaining(s, q[i]) <= n)
    ensures TickSorted(s1) && s1.now == (s.now + n) % TICK_SPAN
    ensures forall t :: t in s1.ticks <==> t in s.ticks && Remaining(s, t) > n
    ensures forall t :: t in s.tasks ==>
      var r := if t in s.ticks && Remaining(s, t) <= n then Expired(s.tasks[t]) else s.tasks[t];
      t in s1.tasks && s1.tasks[t] == r.(prio := s1.tasks[t].prio)
  {
    hide Expired, Remaining;
    SplitMembers(s, q, k, n);
    forall u | u in q[k..] ensures Remaining(s1, u) == Remaining(s, u) - n && Remaining(s, u) > n {
      Elapsed(s, n, u);
      DrainedLater(s0, s1, q, k, u);
    }
    assert Ordered(s1, q[k..]) by {
      forall i, j | 0 <= i < j < |q[k..]| ensures Remaining(s1, q[k..][i]) <= Remaining(s1, q[k..][j]) {
        assert Remaining(s, q[k + i]) <= Remaining(s, q[k + j]);
      }
    }
  }

  lemma SplitMembers(s: State, q: seq<Tid>, k: nat, n: nat)
    requires k <= |q| && forall i :: 0 <= i < |q| ==> (i < k <==> Remaining(s, q[i]) <= n)
    ensures forall t :: t in q[..k] <==> t in q && Remaining(s, t) <= n
    ensures forall t :: t in q[k..] <==> t in q && Remaining(s, t) > n
  {
    hide Remaining;
    assert q == q[..k] + q[k..];
    forall t ensures t in q[..k] ==> Remaining(s, t) <= n {
      if t in q[..k] { var i :| 0 <= i < k && q[..k][i] == t; assert q[i] == t; }
    }
    forall t ensures t in q[k..] ==> Remaining(s, t) > n {
      if t in q[k..] { var i :| 0 <= i < |q[k..]| && q[k..][i] == t; assert q[k + i] == t; }
    }
  }

  lemma DrainedLater(s0: State, s1: State, q: seq<Tid>, k: nat, u: Tid)
    requires Drained(s0, s1, q, k) && u in q[k..] && NoDup(q)
    ensures Remaining(s1, u) == Remaining(s0, u)
  {
    hide Expired;
    assert u !in q[..k] by {
      var j :| 0 <= j < |q[k..]| && q[k..][j] == u;
      assert q[k + j] == u;
    }
  }

  // ---- runs -----------------------------------------------------------------------------------

  /** Timeouts under half the range of the tick counter, or none at all. */
  predicate ModestTimeout(c: Call) {
    match c
    case Lock(_, ticks) => ticks < HALF_SPAN || ticks == WAIT_FOREVER
    case PendOn(_, ticks) => ticks < HALF_SPAN || ticks == WAIT_FOREVER
    case SleepFor(ticks) => ticks < HALF_SPAN
    case _ => true
  }

  lemma ExecTickSorted(s: State, c: Call)
    requires Inv(s) && Enabled(s, c) && TickSorted(s) && ModestTimeout(c)
    ensures TickSorted(Exec(s, c))
  {
    hide Inv, TickSorted, TickRel, MutexLock, MutexUnlock, MutexDel, TaskPriChange, TaskSuspend, TaskResume, TaskSleep, TaskYield,
      TaskWaitAbort, TaskDel, ObjPend, ObjWake, ObjDel, TickUpdate, TimeSlice, IntrptEnter, IntrptExit, SchedDisable, SchedEnable;
    InvTicks(s);
    match c {
      case Lock(m, ticks) => LockSorted(s, m, ticks);
      case PendOn(o, ticks) => LockSorted(s, o, ticks);
      case SleepFor(ticks) => SleepSorted(s, ticks);
      case Tick(n) => TickExact(s, n);
      case Unlock(m) => UnlockRel(s, m); TickRelSorted(s, Exec(s, c));
      case DelMutex(m) => DelRel(s, m); TickRelSorted(s, Exec(s, c));
      case DelObj(o) => DelRel(s, o); TickRelSorted(s, Exec(s, c));
      case ChangePri(t, pri) => PriRel(s, t, pri); TickRelSorted(s, Exec(s, c));
      case SuspendTask(t) => SuspendRel(s, t); TickRelSorted(s, Exec(s, c));
      case ResumeTask(t) => ResumeRel(s, t); TickRelSorted(s, Exec(s, c));
      case Yield => YieldRel(s); TickRelSorted(s, Exec(s, c));
      case Slice => YieldRel(s); TickRelSorted(s, Exec(s, c));
      case WaitAbort(t) => AbortRel(s, t); TickRelSorted(s, Exec(s, c));
      case DelTask(which) => TaskDelRel(s, which); TickRelSorted(s, Exec(s, c));
      case Wake(o, t) => ObjWakeRel(s, o, t); TickRelSorted(s, Exec(s, c));
      case _ => CountersRel(s); TickRelSorted(s, Exec(s, c));
    }
  }

  lemma InvTicks(s: State)
    requires Inv(s)
    ensures TicksOk(s)
  {
    hide WaitsOk, SortedOk, OwnsOk, ReadyOk, TasksOk, PiOk, NoneWaits;
  }

  /** Over whole runs with modest timeouts the tick list stays sorted. */
  lemma {:induction false} RunTickSorted(s: State, cs: seq<Call>, s1: State)
    requires Inv(s) && TickSorted(s) && Run(s, cs, s1) && forall c :: c in cs ==> ModestTimeout(c)
    ensures TickSorted(s1)
    decreases |cs|
  {
    hide Inv, Exec, Enabled, TickSorted, ModestTimeout;
    if cs != [] {
      ExecInv(s, cs[0]);
      ExecTickSorted(s, cs[0]);
      RunTickSorted(Exec(s, cs[0]), cs[1..], s1);
    }
  }

  /** Why timeouts must stay under half the range: a sleep of `ticks` ticks is
      already over at the very first tick exactly if it asked for one tick or
      for more than half the range. */
  lemma SleepOverAtFirstTick(s: State, t: Tid, ticks: nat)
    requires 0 < ticks < TICK_SPAN && s.T(t).tickMatch == (s.now + ticks) % TICK_SPAN
    ensures Due(s.(now := (s.now + 1) % TICK_SPAN), t) <==> ticks == 1 || ticks > HALF_SPAN
  {
    var s1 := s.(now := (s.now + 1) % TICK_SPAN);
    var q := (s.now + ticks) / TICK_SPAN;
    var q1 := (s.now + 1) / TICK_SPAN;
    assert s.T(t).tickMatch - s1.now == (ticks - 1) + (q1 - q) * TICK_SPAN;
    ModShift(ticks - 1, q1 - q);
  }
}
