/** The kernel as the C code runs it: global lists updated in place, loops over
    wait lists, held mutexes, the owner chain and the tick list. Every method is
    proved to do what the step function of the same name says. */
module KernelImpl {
  import opened Options
  import opened Lists
  import opened KernelState
  import opened KernelSteps
  import opened KernelInvariants
  import opened KernelInheritance
  import opened KernelWaits
  import opened KernelMutexes
  import opened KernelHandOver
  import opened KernelCalls
  import opened KernelTasks
  import opened KernelDeletion
  import opened KernelRun

  /** t put into the rest of q, read as put into q. */
  lemma SplitOn(q: seq<Tid>, t: Tid, i: nat)
    requires 0 < i <= |q|
    ensures [q[0]] + (q[1..][..i - 1] + [t] + q[1..][i - 1..]) == q[..i] + [t] + q[i..]
    ensures forall j :: 0 <= j < |q| - 1 ==> q[1..][j] == q[j + 1]
  {
    assert q[1..][..i - 1] == q[1..i] && q[1..][i - 1..] == q[i..];
    assert q[..i] == [q[0]] + q[1..i];
  }

  lemma {:induction false} InsertSplit(s: State, q: seq<Tid>, t: Tid, i: nat)
    requires i <= |q| && (forall j :: 0 <= j < i ==> s.T(q[j]).prio <= s.T(t).prio)
    requires i < |q| ==> s.T(q[i]).prio > s.T(t).prio
    ensures InsertByPrio(s, q, t) == q[..i] + [t] + q[i..]
  {
    hide NoDup;
    if i > 0 {
      SplitOn(q, t, i);
      InsertSplit(s, q[1..], t, i - 1);
    }
  }

  lemma {:induction false} InsertTickSplit(s: State, q: seq<Tid>, t: Tid, val: nat, i: nat)
    requires i <= |q| && (forall j :: 0 <= j < i ==> Remaining(s, q[j]) <= val)
    requires i < |q| ==> Remaining(s, q[i]) > val
    ensures InsertByTick(s, q, t, val) == q[..i] + [t] + q[i..]
  {
    hide Remaining, NoDup;
    if i > 0 {
      SplitOn(q, t, i);
      InsertTickSplit(s, q[1..], t, val, i - 1);
    }
  }

  lemma {:induction false} MinFrameAcc(s: State, s1: State, ms: seq<Oid>, acc: nat)
    requires s1.objs == s.objs && forall u :: s1.T(u).prio == s.T(u).prio
    ensures MinFirst(s1, ms, acc) == MinFirst(s, ms, acc)
  {
    if ms != [] {
      var w := s.O(ms[0]).waiters;
      MinFrameAcc(s, s1, ms[1..], if w != [] && s.T(w[0]).prio < acc then s.T(w[0]).prio else acc);
    }
  }

  lemma RemoveStep(q: seq<Tid>, i: nat, t: Tid)
    requires i < |q|
    ensures Remove(q[i..], t) == (if q[i] == t then [] else [q[i]]) + Remove(q[i + 1..], t)
  {
    assert q[i..][1..] == q[i + 1..];
  }

  class Kernel {
    var tasks: map<Tid, Task>
    var objs: map<Oid, Obj>
    var ready: seq<seq<Tid>>
    var taskBits: set<nat>
    var highestPri: nat
    var tickList: seq<Tid>
    var tickCount: nat
    var activeTask: Tid
    var schedLock: nat
    var nestedLevel: nat

    /** The state of the kernel as a value. */
    function S(): State
      reads this
    {
      State(tasks, objs, ready, taskBits, highestPri, tickList, tickCount, activeTask, schedLock, nestedLevel)
    }

    /** `ready_list_add_head` and `ready_list_add_tail`. */
    method ReadyListAdd(t: Tid, atHead: bool)
      requires t in tasks && tasks[t].prio < |ready|
      modifies this`ready, this`taskBits, this`highestPri
      ensures S() == ReadyAdd(old(S()), t, atHead)
    {
      var p := tasks[t].prio;
      if ready[p] == [] {
        ready := ready[p := [t]];
        taskBits := taskBits + {p};
        if p < highestPri { highestPri := p; }
        return;
      }
      ready := ready[p := if atHead then [t] + ready[p] else ready[p] + [t]];
    }

    /** `ready_list_rm`. */
    method ReadyListRm(t: Tid)
      requires t in tasks && tasks[t].prio < |ready|
      modifies this`ready, this`taskBits, this`highestPri
      ensures S() == ReadyRm(old(S()), t)
    {
      var p := tasks[t].prio;
      if |ready[p]| > 1 {
        var q := KlistRm(ready[p], t);
        ready := ready[p := q];
        return;
      }
      ready := ready[p := []];
      taskBits := taskBits - {p};
      if p != highestPri { return; }
      var i := FindFirstBit(taskBits);
      highestPri := i;
    }

    /** `klist_rm` on a list that may hold t. */
    static method KlistRm(q: seq<Tid>, t: Tid) returns (r: seq<Tid>)
      ensures r == Remove(q, t)
    {
      hide Remove;
      r := [];
      var i := 0;
      assert q[0..] == q;
      while i < |q|
        invariant 0 <= i <= |q|
        invariant r + Remove(q[i..], t) == Remove(q, t)
      {
        RemoveStep(q, i, t);
        ghost var left := Remove(q[i + 1..], t);
        if q[i] != t {
          assert r + ([q[i]] + left) == (r + [q[i]]) + left;
          r := r + [q[i]];
        } else {
          assert [] + left == left;
        }
        i := i + 1;
      }
      assert q[|q|..] == [] && Remove(q[|q|..], t) == [];
    }

    /** `krhino_find_first_bit`: the least set bit. */
    static method FindFirstBit(bits: set<nat>) returns (i: nat)
      ensures i == LeastFrom(bits, 0)
    {
      i := 0;
      while i < PRI_MAX && i !in bits
        invariant i <= PRI_MAX && LeastFrom(bits, i) == LeastFrom(bits, 0)
      {
        i := i + 1;
      }
    }

    /** `pend_list_add`: the loop stops at the first waiter that is less urgent. */
    method PendListAdd(o: Oid, t: Tid)
      requires o in objs && t in tasks
      modifies this`objs
      ensures S() == old(S()).PutO(o, old(objs)[o].(waiters := InsertByPrio(old(S()), old(objs)[o].waiters, t)))
    {
      var q := objs[o].waiters;
      var i := 0;
      while i < |q| && (q[i] !in tasks || tasks[q[i]].prio <= tasks[t].prio)
        invariant 0 <= i <= |q|
        invariant forall j :: 0 <= j < i ==> S().T(q[j]).prio <= S().T(t).prio
      {
        i := i + 1;
      }
      InsertSplit(S(), q, t, i);
      objs := objs[o := objs[o].(waiters := q[..i] + [t] + q[i..])];
    }

    /** `pend_list_reorder`. */
    method PendListReorder(t: Tid)
      requires t in tasks && tasks[t].blkObj.Some? && tasks[t].blkObj.value in objs
      modifies this`objs
      ensures S() == Reorder(old(S()), t)
    {
      hide InsertByPrio, Remove;
      var o := tasks[t].blkObj.value;
      if objs[o].policy == ByPrio {
        var q := KlistRm(objs[o].waiters, t);
        objs := objs[o := objs[o].(waiters := q)];
        ghost var mid := S();
        PendListAdd(o, t);
        InsertSame(mid, old(S()), q, t);
      }
    }

    /** `mutex_pri_look`: the splice of mutexRel out of the list of held mutexes
        and the best priority among the first waiters of the others. */
    method MutexPriLook(t: Tid, mutexRel: Option<Oid>) returns (newPri: nat)
      requires t in tasks && NoDup(tasks[t].mutexes)
      requires forall m :: m in tasks[t].mutexes ==> m in objs
      requires forall m, w :: m in objs && w in objs[m].waiters ==> w in tasks
      modifies this`tasks
      ensures S() == if mutexRel.Some? then Splice(old(S()), t, mutexRel.value) else old(S())
      ensures newPri == Look(S(), t)
    {
      hide MinFirst, Remove, Spared, NoDup;
      ghost var s0 := S();
      var ms := tasks[t].mutexes;
      ghost var rest := Spared(ms, mutexRel);
      newPri := tasks[t].bPrio;
      var pri := newPri;
      var i := 0;
      assert ms[0..] == ms && ms[..0] + rest == rest;
      while i < |ms|
        invariant tasks == s0.tasks[t := s0.tasks[t].(mutexes := ms)]
        invariant 0 <= i <= |ms| && newPri <= pri
        invariant forall m :: m in ms ==> m in objs
        invariant rest == ms[..i] + Spared(ms[i..], mutexRel)
        invariant MinFirst(s0, rest, s0.T(t).bPrio) == MinFirst(s0, Spared(ms[i..], mutexRel), newPri)
        decreases |ms| - i
      {
        var m := ms[i];
        LookStep(s0, ms, i, mutexRel, newPri);
        if Some(m) == mutexRel {
          ms := ms[..i] + ms[i + 1..];
          tasks := tasks[t := tasks[t].(mutexes := ms)];
          continue;
        }
        if objs[m].waiters != [] {
          assert objs[m].waiters[0] in objs[m].waiters;
          pri := tasks[objs[m].waiters[0]].prio;
        }
        if newPri > pri { newPri := pri; }
        i := i + 1;
      }
      LookEnd(s0, S(), t, ms, i, mutexRel, newPri);
    }

    /** The switch of `task_pri_change` on the state of the task. */
    method SetTaskPrio(t: Tid, pri: nat)
      requires t in tasks && tasks[t].Live() && tasks[t].prio < |ready| && pri < |ready|
      requires tasks[t].Waiting() ==> tasks[t].blkObj.Some? && tasks[t].blkObj.value in objs
      modifies this`tasks, this`objs, this`ready, this`taskBits, this`highestPri
      ensures S() == SetPrio(old(S()), t, pri)
    {
      hide InsertByPrio, Remove, LeastFrom;
      match tasks[t].state {
        case Rdy =>
          ReadyListRm(t);
          tasks := tasks[t := tasks[t].(prio := pri)];
          ReadyListAdd(t, t == activeTask);
        case Sleep | Suspended | SleepSuspended =>
          tasks := tasks[t := tasks[t].(prio := pri)];
        case Pend | PendSuspended =>
          tasks := tasks[t := tasks[t].(prio := pri)];
          PendListReorder(t);
      }
    }

    /** `task_pri_change`: the loop that climbs the owner chain. */
    method ChangeTaskPrio(t: Tid, pri: nat, ghost rel: Option<Oid>)
      requires Base(S(), rel) && t in tasks && tasks[t].Live() && t != IDLE && pri < IDLE_PRI
      requires rel == None || tasks[t].state == Rdy
      modifies this`tasks, this`objs, this`ready, this`taskBits, this`highestPri
      ensures S() == PriChange(old(S()), t, pri)
    {
      hide Base, SetPrio, Look, IsMin, NoDup, UpTo, Below;
      ghost var s0 := S();
      var task, newPri: nat := Some(t), pri;
      while task.Some?
        invariant task.Some? ==> Base(S(), rel) && Climbs(S(), task.value, newPri, rel)
        invariant (if task.Some? then PriChange(S(), task.value, newPri) else S()) == PriChange(s0, t, pri)
        decreases task.Some?,
                  if task.Some? && newPri > S().T(task.value).prio then 1 else 0,
                  if task.None? then 0 else
                  if newPri > S().T(task.value).prio then |UpTo(S(), S().T(task.value).prio)| else |Below(S(), newPri)|
      {
        var cur := task.value;
        if tasks[cur].prio == newPri {
          task := None;
        } else {
          ghost var s := S();
          var oldPri := tasks[cur].prio;
          ClimbFacts(s, cur, newPri, rel);
          SetPrioShrinks(s, cur, newPri);
          SetTaskPrio(cur, newPri);
          task := None;
          if tasks[cur].Waiting() && objs[tasks[cur].blkObj.value].kind == Mutex {
            var mutexTask := objs[tasks[cur].blkObj.value].owner.value;
            if tasks[mutexTask].prio > tasks[cur].prio {
              task := Some(mutexTask);
            } else if tasks[mutexTask].prio == oldPri {
              newPri := MutexPriLook(mutexTask, None);
              if newPri != tasks[mutexTask].prio { task := Some(mutexTask); }
            }
          }
        }
      }
    }

    /** `mutex_release`: look for the new priority of t, without mutexRel, and change to it. */
    method MutexRelease(t: Tid, mutexRel: Option<Oid>, ghost rel: Option<Oid>)
      requires t in tasks && HeldExist(S(), t) && (mutexRel.Some? ==> mutexRel.value in objs)
      requires
        var d := if mutexRel.Some? then Drop(S(), t, mutexRel.value) else S();
        Base(d, rel) && Climbs(d, t, Look(d, t), rel)
      modifies this`tasks, this`objs, this`ready, this`taskBits, this`highestPri
      ensures S() == Relook(if mutexRel.Some? then Drop(old(S()), t, mutexRel.value) else old(S()), t)
    {
      hide Base, Look, PriChange, Remove, Successor;
      if mutexRel.Some? {
        // the link that stays behind when the mutex leaves the list
        var m := mutexRel.value;
        objs := objs[m := objs[m].(next := Successor(tasks[t].mutexes, m))];
      }
      var newPri := MutexPriLook(t, mutexRel);
      if newPri != tasks[t].prio {
        ChangeTaskPrio(t, newPri, rel);
      }
    }

    /** `mutex_task_pri_reset`. */
    method MutexTaskPriReset(t: Tid)
      requires t in tasks && tasks[t].blkObj.Some? && tasks[t].blkObj.value in objs && Base(S(), None)
      requires objs[tasks[t].blkObj.value].kind == Mutex ==> objs[tasks[t].blkObj.value].owner.Some?
      modifies this`tasks, this`objs, this`ready, this`taskBits, this`highestPri
      ensures S() == Reset(old(S()), t)
    {
      hide Base, Relook;
      var m := tasks[t].blkObj.value;
      if objs[m].kind == Mutex {
        var mutexTask := objs[m].owner.value;
        OwnerFacts(S(), m);
        if tasks[mutexTask].prio == tasks[t].prio {
          MutexRelease(mutexTask, None, None);
        }
      }
    }

    /** `tick_list_insert` with its sorted insertion loop. */
    method TickListInsert(t: Tid, time: nat)
      requires t in tasks
      modifies this`tasks, this`tickList
      ensures S() == TickInsert(old(S()), t, time)
    {
      hide Remaining, InsertByTick;
      if time > 0 {
        ghost var s0 := S();
        var q := tickList;
        var i := 0;
        while i < |q| && TicksLeft(q[i]) <= time
          invariant 0 <= i <= |q|
          invariant forall j :: 0 <= j < i ==> Remaining(s0, q[j]) <= time
        {
          i := i + 1;
        }
        InsertTickSplit(s0, q, t, time, i);
        tasks := tasks[t := tasks[t].(tickMatch := (tickCount + time) % TICK_SPAN, ticking := true)];
        tickList := q[..i] + [t] + q[i..];
      }
    }

    function TicksLeft(t: Tid): (left: nat)
      reads this
      ensures left == Remaining(S(), t)
    {
      (TickMatch(t) - tickCount) % TICK_SPAN
    }

    function TickMatch(t: Tid): nat
      reads this
    {
      if t in tasks then tasks[t].tickMatch else NO_TASK.tickMatch
    }

    /** `tick_list_rm`. */
    method TickListRm(t: Tid)
      requires t in tasks
      modifies this`tasks, this`tickList
      ensures S() == TickRm(old(S()), t)
    {
      if tasks[t].ticking {
        tickList := KlistRm(tickList, t);
        tasks := tasks[t := tasks[t].(ticking := false)];
      }
    }

    /** `klist_rm(&task->task_list)` for a pending task. */
    method LeaveWaitList(t: Tid)
      requires t in tasks && tasks[t].blkObj.Some? && tasks[t].blkObj.value in objs
      modifies this`objs
      ensures S() == Unpend(old(S()), t)
    {
      var o := tasks[t].blkObj.value;
      var q := KlistRm(objs[o].waiters, t);
      objs := objs[o := objs[o].(waiters := q)];
    }

    /** `pend_to_blk_obj`. */
    method PendToBlkObj(o: Oid, t: Tid, ticks: nat)
      requires o in objs && t in tasks && tasks[t].prio < |ready|
      modifies this`tasks, this`objs, this`tickList, this`ready, this`taskBits, this`highestPri
      ensures S() == Block(old(S()), o, t, ticks)
    {
      hide InsertByPrio, InsertByTick, Remove, LeastFrom;
      tasks := tasks[t := tasks[t].(blkObj := Some(o))];
      if ticks != WAIT_FOREVER {
        TickListInsert(t, ticks);
      }
      tasks := tasks[t := tasks[t].(state := Pend)];
      ReadyListRm(t);
      if objs[o].policy == Fifo {
        objs := objs[o := objs[o].(waiters := objs[o].waiters + [t])];
      } else {
        PendListAdd(o, t);
      }
    }

    /** The end of a wait: off the wait list and the tick list, then ready or suspended. */
    method EndPend(t: Tid, why: BlkState, toReady: bool)
      requires t in tasks && tasks[t].blkObj.Some? && tasks[t].blkObj.value in objs && tasks[t].prio < |ready|
      modifies this`tasks, this`objs, this`tickList, this`ready, this`taskBits, this`highestPri
      ensures S() == Unblock(old(S()), t, why, toReady)
    {
      hide Remove;
      LeaveWaitList(t);
      TickListRm(t);
      tasks := tasks[t := tasks[t].(state := if toReady then Rdy else Suspended, blkState := why)];
      if toReady { ReadyListAdd(t, false); }
    }

    /** `pend_task_wakeup` and `pend_task_rm`, which differ in the reason only. */
    method PendTaskWake(t: Tid, why: BlkState)
      requires t in tasks && tasks[t].Waiting() && tasks[t].blkObj.Some? && tasks[t].blkObj.value in objs
      requires tasks[t].prio < |ready|
      modifies this`tasks, this`objs, this`tickList, this`ready, this`taskBits, this`highestPri
      ensures S() == Wakeup(old(S()), t, why)
    {
      hide Remove, Unblock;
      EndPend(t, why, tasks[t].state == Pend);
      UnblockKeeps(old(S()), t, why, old(tasks)[t].state == Pend);
      tasks := tasks[t := tasks[t].(blkObj := None)];
    }

    /** `core_sched`. */
    method CoreSchedule()
      modifies this`activeTask
      ensures S() == CoreSched(old(S()))
    {
      if nestedLevel > 0 { return; }
      if schedLock > 0 { return; }
      var preferred := if highestPri < |ready| && ready[highestPri] != [] then ready[highestPri][0] else activeTask;
      if preferred == activeTask { return; }
      activeTask := preferred;
    }

    // ---- mutexes -------------------------------------------------------------------

    /** `krhino_mutex_lock`, up to the point where the caller is blocked. */
    method KrhinoMutexLock(m: Oid, ticks: nat) returns (status: Status)
      requires Inv(S()) && Enabled(S(), Lock(m, ticks))
      modifies this
      ensures (S(), status) == MutexLock(old(S()), m, ticks) && Inv(S())
    {
      hide Inv, PriChange, Block, CoreSched, Take, NoneWaits, PiOk, ActiveOk, LockReady, Steady, OwnsOk, WaitsOk;
      MutexLockInv(S(), m, ticks);
      if nestedLevel > 0 { return NotCalledByIntrpt; }
      if m !in objs || objs[m].kind != Mutex { return KobjTypeErr; }
      if objs[m].owner == Some(activeTask) {
        if objs[m].nested == NESTED_MAX { return MutexNestedOvf; }
        objs := objs[m := objs[m].(nested := objs[m].nested + 1)];
        return MutexOwnerNested;
      }
      LockThere(S(), m);
      if objs[m].owner.None? {
        assert S().T(activeTask) == tasks[activeTask];
        TakeIs(S(), m, activeTask);
        objs := objs[m := objs[m].(owner := Some(activeTask), nested := 1)];
        tasks := tasks[activeTask := tasks[activeTask].(mutexes := [m] + tasks[activeTask].mutexes)];
        return Success;
      }
      if ticks == NO_WAIT { return NoPendWait; }
      if schedLock > 0 { return SchedDisabled; }
      var mutexTask := objs[m].owner.value;
      if tasks[activeTask].prio < tasks[mutexTask].prio {
        LockRaise(S(), m);
        ChangeTaskPrio(mutexTask, tasks[activeTask].prio, None);
      } else {
        LockPlain(S(), m);
      }
      LockedThere(S(), m, activeTask, mutexTask);
      PendToBlkObj(m, activeTask, ticks);
      CoreSchedule();
      status := Blocked;
    }

    /** A mutex its owner has let go of goes to the first waiter, or is free. */
    method PassMutex(m: Oid, nested: nat)
      requires Released(S(), m)
      modifies this`tasks, this`objs, this`tickList, this`ready, this`taskBits, this`highestPri
      ensures S() == HandOver(old(S()), m, nested)
    {
      hide Base, Wakeup, Remove;
      if objs[m].waiters == [] {
        objs := objs[m := objs[m].(owner := None)];
        return;
      }
      ghost var s := S();
      var task := objs[m].waiters[0];
      WaiterFacts(s, m, Some(m));
      ReadyThere(s, Some(m), task);
      PendTaskWake(task, BlkFinish);
      WakeupShape(s, task, BlkFinish);
      objs := objs[m := objs[m].(owner := Some(task), nested := nested)];
      tasks := tasks[task := tasks[task].(mutexes := [m] + tasks[task].mutexes)];
    }

    /** `krhino_mutex_unlock`. */
    method KrhinoMutexUnlock(m: Oid) returns (status: Status)
      requires Inv(S())
      modifies this
      ensures (S(), status) == MutexUnlock(old(S()), m) && Inv(S())
    {
      hide Inv, Relook, HandOver, CoreSched, Drop, NoneWaits, PiOk, ActiveOk, Steady, OwnsOk, WaitsOk, Released;
      MutexUnlockInv(S(), m);
      if nestedLevel > 0 { return NotCalledByIntrpt; }
      if m !in objs || objs[m].kind != Mutex { return KobjTypeErr; }
      if objs[m].owner != Some(activeTask) { return NotReleasedByOwner; }
      ghost var s := S();
      UnlockThere(s, m);
      objs := objs[m := objs[m].(nested := (objs[m].nested - 1) % (NESTED_MAX + 1))];
      if objs[m].nested > 0 { return MutexOwnerNested; }
      MutexRelease(activeTask, Some(m), Some(m));
      var blocked := objs[m].waiters != [];
      PassMutex(m, 1);
      if !blocked { return Success; }
      CoreSchedule();
      status := Success;
    }

    /** `while (!is_klist_empty(head)) pend_task_rm(first)` on an object that lost its type. */
    method WakeAllWaiters(o: Oid)
      requires Base(S(), None) && PiOk(S(), None) && o in objs && objs[o].kind != Mutex
      modifies this`tasks, this`objs, this`tickList, this`ready, this`taskBits, this`highestPri
      ensures S() == WakeAll(old(S()), old(objs)[o].waiters, BlkDel)
    {
      hide Base, PiOk, Wakeup;
      ghost var s0, q0 := S(), objs[o].waiters;
      while objs[o].waiters != []
        invariant Base(S(), None) && PiOk(S(), None) && o in objs && objs[o].kind != Mutex
        invariant WakeAll(S(), objs[o].waiters, BlkDel) == WakeAll(s0, q0, BlkDel)
        decreases |objs[o].waiters|
      {
        ghost var s := S();
        var task := objs[o].waiters[0];
        WakeStep(s, o);
        PendTaskWake(task, BlkDel);
      }
    }

    /** `krhino_mutex_del`. */
    method KrhinoMutexDel(m: Oid) returns (status: Status)
      requires Inv(S())
      modifies this
      ensures (S(), status) == MutexDel(old(S()), m) && Inv(S())
    {
      hide Base, PiOk, NoneWaits, ActiveOk, Relook, CoreSched, WakeAll, Drop, OwnsOk, WaitsOk, RetiredFrame;
      MutexDelInv(S(), m);
      if nestedLevel > 0 { return NotCalledByIntrpt; }
      if m !in objs || objs[m].kind != Mutex { return KobjTypeErr; }
      ghost var s := S();
      RetiredOk(s, m);
      if objs[m].owner.Some? { RetireThere(s, m); }
      RetiredThere(s, Retired(s, m), m);
      objs := objs[m := objs[m].(kind := NoKind)];
      if objs[m].owner.Some? {
        MutexRelease(objs[m].owner.value, Some(m), None);
      }
      WakeAllWaiters(m);
      CoreSchedule();
      status := Success;
    }

    // ---- tasks ---------------------------------------------------------------------

    /** `mutex_pri_limit`: like `mutex_pri_look`, from a given priority. */
    method MutexPriLimit(t: Tid, pri: nat) returns (highPri: nat)
      requires t in tasks && HeldExist(S(), t)
      ensures highPri == MinFirst(S(), tasks[t].mutexes, pri)
    {
      hide MinFirst;
      var ms := tasks[t].mutexes;
      highPri := pri;
      var p := pri;
      var i := 0;
      assert ms[0..] == ms;
      while i < |ms|
        invariant 0 <= i <= |ms| && highPri <= p
        invariant MinFirst(S(), ms[i..], highPri) == MinFirst(S(), ms, pri)
      {
        LookStep(S(), ms, i, None, highPri);
        if objs[ms[i]].waiters != [] {
          assert objs[ms[i]].waiters[0] in objs[ms[i]].waiters;
          p := tasks[objs[ms[i]].waiters[0]].prio;
        }
        if p < highPri { highPri := p; }
        i := i + 1;
      }
      MinDone(S(), ms, highPri);
    }

    /** `krhino_task_pri_change`; the old priority is reported on success. */
    method KrhinoTaskPriChange(t: Tid, pri: nat) returns (status: Status, oldPri: nat)
      requires Inv(S()) && t in tasks
      modifies this
      ensures (S(), status) == TaskPriChange(old(S()), t, pri) && Inv(S())
      ensures status == Success ==> oldPri == old(tasks)[t].prio
    {
      hide Inv, PriChange, MinFirst, CoreSched;
      TaskPriChangeInv(S(), t, pri);
      oldPri := 0;
      if tasks[t].prio >= IDLE_PRI { return PriChgNotAllowed, oldPri; }
      if pri >= IDLE_PRI { return PriChgNotAllowed, oldPri; }
      if tasks[t].state == Deleted { return InvTaskState, oldPri; }
      if nestedLevel > 0 { return NotCalledByIntrpt, oldPri; }
      PriChangeThere(S(), t, pri);
      var limit := MutexPriLimit(t, pri);
      tasks := tasks[t := tasks[t].(bPrio := pri)];
      oldPri := tasks[t].prio;
      ChangeTaskPrio(t, limit, None);
      CoreSchedule();
      status := Success;
    }

    /** The switch of `task_suspend`. */
    method MarkSuspended(t: Tid) returns (status: Status)
      requires t in tasks && tasks[t].prio < |ready|
      modifies this`tasks, this`ready, this`taskBits, this`highestPri
      ensures (S(), status) == Marked(old(S()), t)
    {
      hide ReadyRm;
      match tasks[t].state {
        case Rdy =>
          tasks := tasks[t := tasks[t].(suspends := 1, state := Suspended)];
          ReadyListRm(t);
        case Sleep => tasks := tasks[t := tasks[t].(suspends := 1, state := SleepSuspended)];
        case Pend => tasks := tasks[t := tasks[t].(suspends := 1, state := PendSuspended)];
        case Suspended | SleepSuspended | PendSuspended =>
          if tasks[t].suspends == SUSPEND_MAX { return SuspendedCountOvf; }
          tasks := tasks[t := tasks[t].(suspends := tasks[t].suspends + 1)];
        case Deleted => return InvTaskState;
      }
      status := Success;
    }

    /** `krhino_task_suspend`. */
    method KrhinoTaskSuspend(t: Tid) returns (status: Status)
      requires Inv(S()) && t in tasks
      modifies this
      ensures (S(), status) == TaskSuspend(old(S()), t) && Inv(S())
    {
      hide Inv, CoreSched, Marked, TaskSuspend;
      TaskSuspendInv(S(), t);
      TaskThere(S(), t);
      SuspendIs(S(), t);
      if tasks[t].prio == IDLE_PRI { return SuspendNotAllowed; }
      if t == activeTask {
        if schedLock > 0 { return SchedDisabled; }
      }
      status := MarkSuspended(t);
      if status != Success { return; }
      CoreSchedule();
    }

    /** `task_resume`. */
    method KrhinoTaskResume(t: Tid) returns (status: Status)
      requires Inv(S()) && t in tasks
      modifies this
      ensures (S(), status) == TaskResume(old(S()), t) && Inv(S())
    {
      hide Inv, CoreSched, Resumed;
      TaskResumeInv(S(), t);
      TaskThere(S(), t);
      match tasks[t].state {
        case Rdy | Sleep | Pend => return TaskNotSuspended;
        case Deleted => return InvTaskState;
        case Suspended | SleepSuspended | PendSuspended => CountDown(t);
      }
      CoreSchedule();
      status := Success;
    }

    /** The three suspended cases of `task_resume`. */
    method CountDown(t: Tid)
      requires t in tasks && tasks[t].prio < |ready| && tasks[t].state in {Suspended, SleepSuspended, PendSuspended}
      modifies this`tasks, this`ready, this`taskBits, this`highestPri
      ensures S() == Resumed(old(S()), t)
    {
      hide ReadyAdd;
      var k := tasks[t].(suspends := (tasks[t].suspends - 1) % (SUSPEND_MAX + 1));
      match k.state {
        case Suspended =>
          if k.suspends == 0 {
            tasks := tasks[t := k.(state := Rdy)];
            ReadyListAdd(t, false);
          } else {
            tasks := tasks[t := k];
          }
        case SleepSuspended => tasks := tasks[t := if k.suspends == 0 then k.(state := Sleep) else k];
        case PendSuspended => tasks := tasks[t := if k.suspends == 0 then k.(state := Pend) else k];
      }
    }

    /** `krhino_task_sleep`. */
    method KrhinoTaskSleep(ticks: nat) returns (status: Status)
      requires Inv(S()) && Enabled(S(), SleepFor(ticks))
      modifies this
      ensures (S(), status) == TaskSleep(old(S()), ticks) && Inv(S())
    {
      hide Inv, CoreSched, ReadyRm, TickInsert;
      TaskSleepInv(S(), ticks);
      if ticks == 0 { return InvParam; }
      if nestedLevel > 0 { return NotCalledByIntrpt; }
      if schedLock > 0 { return SchedDisabled; }
      ActiveThere(S());
      TaskThere(S(), activeTask);
      tasks := tasks[activeTask := tasks[activeTask].(state := Sleep)];
      InsertKeeps(S(), activeTask, ticks);
      TickListInsert(activeTask, ticks);
      ReadyListRm(activeTask);
      CoreSchedule();
      status := Blocked;
    }

    /** `krhino_task_wait_abort`. */
    method KrhinoTaskWaitAbort(t: Tid) returns (status: Status)
      requires Inv(S()) && t in tasks
      modifies this
      ensures (S(), status) == TaskWaitAbort(old(S()), t) && Inv(S())
    {
      hide Inv, CoreSched, ReadyAdd, Unblock, Reset, Remove;
      TaskWaitAbortInv(S(), t);
      TaskThere(S(), t);
      if nestedLevel > 0 { return NotCalledByIntrpt; }
      match tasks[t].state {
        case Rdy =>
        case Suspended =>
          tasks := tasks[t := tasks[t].(state := Rdy)];
          ReadyListAdd(t, false);
        case Sleep | SleepSuspended =>
          TickListRm(t);
          tasks := tasks[t := tasks[t].(state := Rdy, blkState := BlkAbort)];
          ReadyListAdd(t, false);
        case Pend | PendSuspended =>
          WaitThere(S(), t, BlkAbort, true);
          EndPend(t, BlkAbort, true);
          MutexTaskPriReset(t);
          tasks := tasks[t := tasks[t].(blkObj := None)];
        case Deleted => return InvTaskState;
      }
      CoreSchedule();
      status := Success;
    }

    /** `task_mutex_free`: the loop over the mutexes a task to be deleted holds. */
    method TaskMutexFree(t: Tid)
      requires t in tasks && tasks[t].Live() && Base(S(), None) && PiOk(S(), Some(t))
      modifies this`tasks, this`objs, this`tickList, this`ready, this`taskBits, this`highestPri
      ensures S() == FreeMutexes(old(S()), t, old(tasks)[t].mutexes)
    {
      hide Base, PiOk, HandOver, Remove, OwnsOk, Steady, Released;
      ghost var s0, ms0 := S(), tasks[t].mutexes;
      while tasks[t].mutexes != []
        invariant t in tasks && tasks[t].Live() && Base(S(), None) && PiOk(S(), Some(t))
        invariant FreeMutexes(S(), t, tasks[t].mutexes) == FreeMutexes(s0, t, ms0)
        decreases |tasks[t].mutexes|
      {
        ghost var s := S();
        var mutex := tasks[t].mutexes[0];
        FreeThere(s, t);
        objs := objs[mutex := objs[mutex].(next := Successor(tasks[t].mutexes, mutex))];
        tasks := tasks[t := tasks[t].(mutexes := tasks[t].mutexes[1..])];
        assert S() == Drop(s, t, mutex);
        PassMutex(mutex, objs[mutex].nested);
      }
    }

    /** The `mutex_list` of m. */
    method MutexList(m: Oid) returns (next: Option<Oid>)
      requires m in objs && Queued(S())
      ensures next == Next(S(), m)
    {
      hide Successor;
      OwnersIn(S());
      if objs[m].kind == Mutex && objs[m].owner.Some? && m in tasks[objs[m].owner.value].mutexes {
        next := Successor(tasks[objs[m].owner.value].mutexes, m);
      } else {
        next := objs[m].next;
      }
    }

    /** The list of the owner of m goes on, behind m, with the list of the first waiter;
        what is cut off keeps its links, and so does m. */
    method PartLists(m: Oid)
      requires m in objs && Queued(S())
      modifies this`tasks, this`objs
      ensures S() == Part(old(S()), m)
    {
      hide Queued, Successor, After, Through;
      ghost var s := S();
      var link := MutexList(m);
      OwnersIn(s);
      if objs[m].waiters != [] && objs[m].kind == Mutex && objs[m].owner.Some? {
        FirstQueued(s, m);
        var owner := objs[m].owner.value;
        var ms := tasks[owner].mutexes;
        if m in ms {
          objs := map o | o in objs :: if o in After(ms, m) then objs[o].(next := Successor(ms, o)) else objs[o];
          tasks := tasks[owner := tasks[owner].(mutexes := Through(ms, m) + tasks[objs[m].waiters[0]].mutexes)];
        }
      }
      assert S() == Cut(s, m);
      CutLink(s, m);
      objs := objs[m := objs[m].(next := link)];
    }

    /** One turn of `task_mutex_free`, whoever owns m. */
    method GiveMutexAway(m: Oid)
      requires m in objs && Queued(S())
      modifies this`tasks, this`objs, this`tickList, this`ready, this`taskBits, this`highestPri
      ensures S() == GiveAway(old(S()), m) && Queued(S()) && objs.Keys == old(objs).Keys
    {
      hide Wakeup, Remove, Queued, Part;
      ghost var s := S();
      GiveAwayQueued(s, m);
      PartQueued(s, m);
      PartLists(m);
      if objs[m].waiters == [] {
        objs := objs[m := objs[m].(owner := None)];
        return;
      }
      var task := objs[m].waiters[0];
      FirstQueued(S(), m);
      WakeupQueued(S(), task);
      PendTaskWake(task, BlkFinish);
      objs := objs[m := objs[m].(owner := Some(task))];
      tasks := tasks[task := tasks[task].(mutexes := [m] + tasks[task].mutexes)];
    }

    /** `task_mutex_free` for a task deleted before: the links are followed from the mutex
        it still points to, and a link is read before its mutex is given away. */
    method StaleMutexFree(t: Tid)
      requires t in tasks && Inv(S())
      modifies this`tasks, this`objs, this`tickList, this`ready, this`taskBits, this`highestPri
      ensures S() == FreeStale(old(S()), StaleList(old(S()), t))
    {
      hide Inv, Queued, GiveAway, Way, Chained, Next, Head, StaleList;
      ghost var s0 := S();
      ghost var ms := StaleList(s0, t);
      InvQueued(s0);
      ghost var u, n := StaleWay(s0, t);
      var next := if tasks[t].mutexes == [] then None else Some(tasks[t].mutexes[0]);
      assert next == Head(tasks[t].mutexes) by { HeadIs(tasks[t].mutexes); }
      while next.Some?
        invariant Queued(S()) && Way(S(), u, n, ms) && Chained(S(), next, ms)
        invariant FreeStale(S(), ms) == FreeStale(s0, StaleList(s0, t))
        decreases |ms|
      {
        var mutex := next.value;
        ChainedStep(S(), mutex, ms);
        WayThere(S(), u, n, ms);
        StaleStep(S(), u, n, ms);
        next := MutexList(mutex);
        GiveMutexAway(mutex);
        ms, n := ms[1..], if n == 0 then 0 else n - 1;
      }
      ChainedStop(S(), ms);
    }

    /** The switch of `krhino_task_del` on the state of the task. */
    method BuryTask(t: Tid)
      requires DelReady(S(), t) && tasks[t].Live()
      modifies this`tasks, this`objs, this`tickList, this`ready, this`taskBits, this`highestPri
      ensures S() == Bury(old(S()), t)
    {
      hide Base, Reset, Remove, LeastFrom;
      match tasks[t].state {
        case Rdy =>
          ReadyListRm(t);
          tasks := tasks[t := tasks[t].(state := Deleted)];
        case Suspended => tasks := tasks[t := tasks[t].(state := Deleted)];
        case Sleep | SleepSuspended =>
          TickListRm(t);
          tasks := tasks[t := tasks[t].(state := Deleted)];
        case Pend | PendSuspended =>
          TickListRm(t);
          LeaveWaitList(t);
          tasks := tasks[t := tasks[t].(state := Deleted)];
          MutexTaskPriReset(t);
      }
    }

    /** `krhino_task_del` of a statically allocated task. */
    method KrhinoTaskDel(which: Option<Tid>) returns (status: Status)
      requires Inv(S()) && (which.Some? ==> which.value in tasks)
      modifies this
      ensures (S(), status) == TaskDel(old(S()), which)
      ensures Enabled(old(S()), DelTask(which)) ==> Inv(S())
    {
      hide Inv, Base, PiOk, NoneWaits, ActiveOk, CoreSched, FreeMutexes, Bury, DelReady, Safe, StaleSafe, FreeStale, StaleList;
      if Enabled(S(), DelTask(which)) { TaskDelInv(S(), which); }
      ActiveThere(S());
      var t := if which.Some? then which.value else activeTask;
      TaskThere(S(), t);
      if nestedLevel > 0 { return NotCalledByIntrpt; }
      if tasks[t].prio == IDLE_PRI { return DelNotAllowed; }
      if t == activeTask {
        if schedLock > 0 { return SchedDisabled; }
      }
      ghost var s := S();
      if tasks[t].state == Deleted {
        StaleMutexFree(t);
        return InvTaskState;
      }
      var first := if tasks[t].mutexes == [] then [] else [tasks[t].mutexes[0]];
      DelThere(s, t);
      TaskMutexFree(t);
      BuryTask(t);
      tasks := tasks[t := tasks[t].(mutexes := first)];
      assert S() == Epitaph(Bury(FreeMutexes(s, t, s.tasks[t].mutexes), t), t, s.tasks[t].mutexes);
      CoreSchedule();
      status := Success;
    }

    // ---- time ------------------------------------------------------------------------

    /** `tick_list_update`: the loop stops at the first task that is not due. */
    method TickListUpdate(n: nat)
      requires Inv(S()) && Enabled(S(), Tick(n))
      modifies this
      ensures S() == TickUpdate(old(S()), n) && Inv(S())
    {
      hide Inv, Safe, Expire, Remove, Steady, Due, ExpiredStep;
      TickUpdateInv(S(), n);
      ActiveThere(S());
      NowSafe(S(), (tickCount + n) % TICK_SPAN);
      tickCount := (tickCount + n) % TICK_SPAN;
      ghost var s0, q0 := S(), tickList;
      var iter := tickList;
      while iter != []
        invariant Safe(S()) && tickList == iter
        invariant Drain(S(), iter) == Drain(s0, q0)
        decreases |iter|
      {
        var task := iter[0];
        ghost var s := S();
        ExpireThere(s, task);
        var left := (tasks[task].tickMatch - tickCount) % TICK_SPAN;
        DueIs(s, task);
        if left != 0 && left < HALF_SPAN { break; }
        ExpireTask(task);
        iter := iter[1..];
      }
    }

    /** What the loop does to one due task. */
    method ExpireTask(t: Tid)
      requires Safe(S()) && t in tickList
      modifies this`tasks, this`objs, this`tickList, this`ready, this`taskBits, this`highestPri
      ensures S() == Expire(old(S()), t)
    {
      hide Safe, Unblock, Reset, Remove, ReadyAdd, Steady, ExpiredStep;
      ExpireThere(S(), t);
      match tasks[t].state {
        case Sleep =>
          ghost var s := S();
          TickListRm(t);
          tasks := tasks[t := tasks[t].(state := Rdy, blkState := BlkFinish)];
          ReadyListAdd(t, false);
        case SleepSuspended =>
          TickListRm(t);
          tasks := tasks[t := tasks[t].(state := Suspended, blkState := BlkFinish)];
        case Pend | PendSuspended =>
          ghost var s := S();
          var toReady := tasks[t].state == Pend;
          WaitSafe(s, t, BlkTimeout, toReady);
          EndPend(t, BlkTimeout, toReady);
          MutexTaskPriReset(t);
          tasks := tasks[t := tasks[t].(blkObj := None)];
      }
    }
  }

  lemma MinDone(s: State, ms: seq<Oid>, p: nat)
    ensures MinFirst(s, ms[|ms|..], p) == p
  {
  }

  lemma PriChangeThere(s: State, t: Tid, pri: nat)
    requires Inv(s) && t in s.tasks && s.tasks[t].Live() && s.tasks[t].prio < IDLE_PRI && pri < IDLE_PRI
    ensures HeldExist(s, t) && t != IDLE && MinFirst(s, s.tasks[t].mutexes, pri) < IDLE_PRI
    ensures Base(s.PutT(t, s.tasks[t].(bPrio := pri)), None)
  {
    hide Base, MinFirst;
    IdleFacts(s, t);
    HeldThere(s, None, t);
    FieldsBase(s, t, s.tasks[t].(bPrio := pri), None);
    MinFirstIsMin(s, s.tasks[t].mutexes, pri);
  }

  lemma TaskThere(s: State, t: Tid)
    requires Inv(s) && t in s.tasks
    ensures |s.ready| == PRI_MAX && s.tasks[t].prio < PRI_MAX && Safe(s)
    ensures s.tasks[t].Waiting() ==> s.tasks[t].blkObj.Some? && s.tasks[t].blkObj.value in s.objs
  {
    hide Base, PiOk, NoneWaits, ActiveOk;
    ReadyThere(s, None, t);
  }

  lemma InsertKeeps(s: State, t: Tid, time: nat)
    requires t in s.tasks
    ensures TickInsert(s, t, time).T(t).prio == s.T(t).prio && TickInsert(s, t, time).ready == s.ready
    ensures t in TickInsert(s, t, time).tasks && TickInsert(s, t, time).active == s.active
    ensures TickInsert(s, t, time).nesting == s.nesting && TickInsert(s, t, time).schedLock == s.schedLock
  {
    hide InsertByTick;
  }

  /** What `mutex_task_pri_reset` relies on once the wait of t has ended. */
  ghost predicate ResetReady(s: State, t: Tid) {
    && t in s.tasks && s.tasks[t].blkObj.Some? && s.tasks[t].blkObj.value in s.objs && Base(s, None)
    && (s.objs[s.tasks[t].blkObj.value].kind == Mutex ==> s.objs[s.tasks[t].blkObj.value].owner.Some?)
    && t in Reset(s, t).tasks
  }

  lemma WaitSafe(s: State, t: Tid, why: BlkState, toReady: bool)
    requires Safe(s) && t in s.tasks && s.tasks[t].Waiting() && (!toReady ==> s.tasks[t].state == PendSuspended)
    ensures ResetReady(Unblock(s, t, why, toReady), t) && s.tasks[t].prio < |s.ready|
    ensures s.tasks[t].blkObj.Some? && s.tasks[t].blkObj.value in s.objs
  {
    hide Base, PiOk, NoneWaits, Unblock, Reset, Remove, WaitsOk, TicksOk, PrioOnly;
    ReadyThere(s, None, t);
    var m := s.tasks[t].blkObj.value;
    BaseTicks(s);
    UnblockShape(s, t, why, toReady);
    UnblockBase(s, t, why, toReady, None);
    if s.objs[m].kind == Mutex { WaitedOwner(s, m, t); }
    ResetPi(s, t, why, toReady);
    PrioOnlyShape(Unblock(s, t, why, toReady), Unblock(s, t, why, toReady), Reset(Unblock(s, t, why, toReady), t), t);
  }

  lemma WaitedOwner(s: State, m: Oid, t: Tid)
    requires Base(s, None) && m in s.objs && s.objs[m].kind == Mutex && t in s.objs[m].waiters
    ensures s.objs[m].owner.Some?
  {
    MutexFacts(s, m);
    hide Base;
  }

  lemma WaitThere(s: State, t: Tid, why: BlkState, toReady: bool)
    requires Inv(s) && t in s.tasks && s.tasks[t].Waiting() && (!toReady ==> s.tasks[t].state == PendSuspended)
    ensures ResetReady(Unblock(s, t, why, toReady), t) && s.tasks[t].prio < |s.ready|
    ensures s.tasks[t].blkObj.Some? && s.tasks[t].blkObj.value in s.objs
  {
    hide Base, PiOk, NoneWaits, ResetReady;
    WaitSafe(s, t, why, toReady);
  }

  lemma FreeThere(s: State, t: Tid)
    requires Base(s, None) && PiOk(s, Some(t)) && t in s.tasks && s.tasks[t].Live() && s.tasks[t].mutexes != []
    ensures
      var m := s.tasks[t].mutexes[0];
      var s1 := HandOver(Drop(s, t, m), m, s.O(m).nested);
      && m in s.objs && Released(Drop(s, t, m), m)
      && Remove(s.tasks[t].mutexes, m) == s.tasks[t].mutexes[1..]
      && Base(s1, None) && PiOk(s1, Some(t)) && t in s1.tasks && s1.tasks[t] == s.tasks[t].(mutexes := s.tasks[t].mutexes[1..])
  {
    hide Base, PiOk, HandOver, Remove, Steady, OwnsOk;
    var ms := s.tasks[t].mutexes;
    var s0 := Drop(s, t, ms[0]);
    var s1 := HandOver(s0, ms[0], s.O(ms[0]).nested);
    HeldFacts(s, t, ms[0]);
    DropBase(s, t, ms[0]);
    DropOwns(s, t, ms[0]);
    FreeStep(s, t, ms[0]);
    HandOverFrame(s0, ms[0], s.O(ms[0]).nested, t);
    HeldNoDup(s, t);
    RemoveHead(ms);
    SteadyTasks(s, s1);
  }

  /** t suspended once more, up to scheduling. */
  function Marked(s: State, t: Tid): (State, Status) {
    var k := s.T(t);
    match k.state
    case Rdy => (ReadyRm(s.PutT(t, k.(suspends := 1, state := Suspended)), t), Success)
    case Sleep => (s.PutT(t, k.(suspends := 1, state := SleepSuspended)), Success)
    case Pend => (s.PutT(t, k.(suspends := 1, state := PendSuspended)), Success)
    case Suspended | SleepSuspended | PendSuspended =>
      if k.suspends == SUSPEND_MAX then (s, SuspendedCountOvf) else (s.PutT(t, k.(suspends := k.suspends + 1)), Success)
    case Deleted => (s, InvTaskState)
  }

  lemma SuspendIs(s: State, t: Tid)
    ensures
      TaskSuspend(s, t) ==
        if s.T(t).prio == IDLE_PRI then (s, SuspendNotAllowed)
        else if t == s.active && s.schedLock > 0 then (s, SchedDisabled)
        else if Marked(s, t).1 == Success then (CoreSched(Marked(s, t).0), Success) else Marked(s, t)
  {
    hide CoreSched, ReadyRm;
  }

  /** What giving a mutex away relies on, whoever owns what. */
  ghost predicate Queued(s: State) {
    && WaitsOk(s) && TicksOk(s) && (forall t :: t in s.tasks ==> s.tasks[t].prio < |s.ready|)
    && forall o :: o in s.objs && !Loose(s.objs[o]) ==> s.objs[o].owner.value in s.tasks
  }

  lemma InvQueued(s: State)
    requires Inv(s)
    ensures Queued(s)
  {
    InvOwns(s);
    assert Base(s, None);
    hide Base, PiOk, NoneWaits, ActiveOk, OwnsOk;
    forall t | t in s.tasks ensures s.tasks[t].prio < |s.ready| { ReadyThere(s, None, t); }
    BuryTokens(s);
    forall o | o in s.objs && !Loose(s.objs[o]) ensures s.objs[o].owner.value in s.tasks { OwnerList(s, o); }
  }

  lemma FirstQueued(s: State, m: Oid)
    requires Queued(s) && m in s.objs && s.objs[m].waiters != []
    ensures
      var w := s.objs[m].waiters[0];
      w in s.tasks && s.tasks[w].Waiting() && s.tasks[w].blkObj == Some(m) && s.tasks[w].prio < |s.ready|
  {
    assert s.objs[m].waiters[0] in s.objs[m].waiters;
  }

  /** Changed lists of held mutexes and owners. */
  lemma ListsQueued(s: State, s1: State)
    requires Queued(s) && s1 == s.(tasks := s1.tasks, objs := s1.objs)
    requires s1.tasks.Keys == s.tasks.Keys && s1.objs.Keys == s.objs.Keys
    requires forall u :: u in s.tasks ==> s1.tasks[u] == s.tasks[u].(mutexes := s1.tasks[u].mutexes)
    requires forall o :: o in s.objs ==> s1.objs[o] == s.objs[o].(owner := s1.objs[o].owner, nested := s1.objs[o].nested, next := s1.objs[o].next) && (!Loose(s1.objs[o]) ==> s1.objs[o].owner.value in s.tasks)
    ensures Queued(s1)
  {
    hide NoDup, Loose;
    assert WaitsOk(s1) by { hide TicksOk; }
    assert TicksOk(s1) by { hide WaitsOk; }
    hide WaitsOk, TicksOk;
  }

  lemma WakeupQueued(s: State, t: Tid)
    requires Queued(s) && t in s.tasks && s.tasks[t].Waiting()
    ensures
      var s1 := Wakeup(s, t, BlkFinish);
      && Queued(s1) && s1.tasks.Keys == s.tasks.Keys && s1.objs.Keys == s.objs.Keys
      && forall o :: o in s.objs ==> s1.objs[o].nested == s.objs[o].nested
  {
    hide Wakeup, Remove, WaitsOk, TicksOk;
    var s1 := Wakeup(s, t, BlkFinish);
    WakeupShape(s, t, BlkFinish);
    WaitTarget(s, t);
    LeaveWaits(s, s1, t, s.tasks[t].blkObj.value);
    LeaveTicks(s, s1, t);
    WakeupLists(s, t);
  }

  lemma WakeupLists(s: State, t: Tid)
    ensures |Wakeup(s, t, BlkFinish).ready| == |s.ready|
  {
    hide Remove;
  }

  lemma GiveAwayQueued(s: State, m: Oid)
    requires Queued(s) && m in s.objs
    ensures Queued(GiveAway(s, m)) && GiveAway(s, m).objs.Keys == s.objs.Keys
  {
    hide Queued, Wakeup, Part;
    PartQueued(s, m);
    var c := Part(s, m);
    if c.objs[m].waiters == [] {
      OwnersIn(c);
      ListsQueued(c, GiveAway(s, m));
    } else {
      FirstQueued(c, m);
      WakeupQueued(c, c.objs[m].waiters[0]);
      GivenQueued(Wakeup(c, c.objs[m].waiters[0], BlkFinish), m, c.objs[m].waiters[0], s.objs[m].nested);
    }
  }

  lemma GivenQueued(s: State, m: Oid, w: Tid, nested: nat)
    requires Queued(s) && m in s.objs && w in s.tasks
    ensures Queued(Take(s, m, w, nested)) && Take(s, m, w, nested).objs.Keys == s.objs.Keys
  {
    hide Queued;
    OwnersIn(s);
    ListsQueued(s, Take(s, m, w, nested));
  }

  lemma PartQueued(s: State, m: Oid)
    requires Queued(s) && m in s.objs
    ensures
      var c := Part(s, m);
      Queued(c) && m in c.objs && c.objs[m].nested == s.objs[m].nested && c.objs.Keys == s.objs.Keys && c.objs[m].waiters == s.objs[m].waiters
  {
    hide Queued, Part, PartList;
    PartKeeps(s, m);
    OwnersIn(s);
    PartOwners(s, m);
    ListsQueued(s, Part(s, m));
  }

  lemma PartOwners(s: State, m: Oid)
    requires m in s.objs && forall o :: o in s.objs && !Loose(s.objs[o]) ==> s.objs[o].owner.value in s.tasks
    ensures forall o :: o in s.objs && !Loose(Part(s, m).O(o)) ==> Part(s, m).O(o).owner.value in s.tasks
  {
    hide Part, PartList, Loose;
    PartKeeps(s, m);
    forall o | o in s.objs && !Loose(Part(s, m).O(o)) ensures Part(s, m).O(o).owner.Some? && Part(s, m).O(o).owner.value in s.tasks {
      LooseSame(s.objs[o], Part(s, m).objs[o]);
      LooseNone(s.objs[o]);
    }
  }

  lemma LooseNone(b: Obj)
    ensures !Loose(b) ==> b.owner.Some?
  {
  }

  /** The cut leaves m alone. */
  lemma CutLink(s: State, m: Oid)
    requires m in s.objs
    ensures Part(s, m) == Cut(s, m).PutO(m, s.objs[m].(next := Next(s, m))) && m in Cut(s, m).objs
    ensures Cut(s, m).objs[m] == s.objs[m].(next := Cut(s, m).objs[m].next)
  {
    hide Successor, After, Through;
  }

  lemma HeadIs(ms: seq<Oid>)
    ensures Head(ms) == if ms == [] then None else Some(ms[0])
  {
  }

  lemma ChainedStep(s: State, m: Oid, ms: seq<Oid>)
    requires Chained(s, Some(m), ms)
    ensures ms != [] && ms[0] == m && Chained(s, Next(s, m), ms[1..])
  {
  }

  lemma ChainedStop(s: State, ms: seq<Oid>)
    requires Chained(s, None, ms)
    ensures ms == []
  {
  }

  lemma WayThere(s: State, u: Tid, n: nat, ms: seq<Oid>)
    requires Way(s, u, n, ms)
    ensures forall x :: x in ms ==> x in s.objs
  {
  }

  /** The loop of `task_mutex_free` goes on along the links it started with. */
  lemma StaleStep(s: State, u: Tid, n: nat, ms: seq<Oid>)
    requires Queued(s) && Way(s, u, n, ms) && ms != [] && Chained(s, Some(ms[0]), ms)
    ensures
      var s1 := GiveAway(s, ms[0]);
      Way(s1, u, if n == 0 then 0 else n - 1, ms[1..]) && Chained(s1, Next(s, ms[0]), ms[1..])
  {
    hide WaitsOk, TicksOk, Way, GiveAway, Next;
    ChainedStep(s, ms[0], ms);
    WayStep(s, u, n, ms);
    ChainedKept(s, GiveAway(s, ms[0]), Next(s, ms[0]), ms[1..]);
  }

  lemma OwnersIn(s: State)
    requires Queued(s)
    ensures forall o :: o in s.objs && !Loose(s.objs[o]) ==> s.objs[o].owner.value in s.tasks
  {
  }

  /** What `krhino_task_del` relies on after the mutexes are freed. */
  ghost predicate DelReady(s: State, t: Tid) {
    && t in s.tasks && s.tasks[t].prio < |s.ready|
    && (s.tasks[t].Waiting() ==> s.tasks[t].blkObj.Some? && s.tasks[t].blkObj.value in s.objs && ResetReady(Depart(s, t), t))
  }

  lemma DelThere(s: State, t: Tid)
    requires Inv(s) && t in s.tasks && s.tasks[t].Live() && s.tasks[t].prio != IDLE_PRI
    ensures PiOk(s, Some(t)) && Base(s, None)
    ensures DelReady(FreeMutexes(s, t, s.tasks[t].mutexes), t)
    ensures FreeMutexes(s, t, s.tasks[t].mutexes).T(t) == s.tasks[t].(mutexes := [])
    ensures t in Bury(FreeMutexes(s, t, s.tasks[t].mutexes), t).tasks
  {
    hide Base, PiOk, NoneWaits, ActiveOk, FreeMutexes, Steady, Depart, Reset, Remove, DelReady, Bury;
    InvTask(s, t);
    PiExcept(s, t);
    FreeAll(s, t, s.tasks[t].mutexes);
    SteadyTasks(s, FreeMutexes(s, t, s.tasks[t].mutexes));
    BuryOk(FreeMutexes(s, t, s.tasks[t].mutexes), t);
    BuryThere(FreeMutexes(s, t, s.tasks[t].mutexes), t);
  }

  lemma BuryThere(s: State, t: Tid)
    requires Base(s, None) && PiOk(s, Some(t)) && t in s.tasks && s.tasks[t].Live() && t != IDLE && s.tasks[t].mutexes == []
    ensures DelReady(s, t)
  {
    hide Base, PiOk, PiBut, Depart, Reset, Remove, WaitsOk, TicksOk, Left, PrioOnly;
    ReadyThere(s, None, t);
    if s.tasks[t].Waiting() {
      var m := s.tasks[t].blkObj.value;
      BaseTicks(s);
      DepartBase(s, t);
      DepartShape(s, t);
      if s.objs[m].kind == Mutex { WaitedOwner(s, m, t); }
      BuryLeft(s, t);
      LeavePiBut(s, Depart(s, t), t, Some(t));
      ResetFrom(s, Depart(s, t), t);
      PrioOnlyShape(Depart(s, t), Depart(s, t), Reset(Depart(s, t), t), t);
    }
  }

  lemma DueIs(s: State, t: Tid)
    ensures Due(s, t) <==> Remaining(s, t) == 0 || Remaining(s, t) >= HALF_SPAN
  {
  }

  lemma ExpireThere(s: State, t: Tid)
    requires Safe(s) && t in s.ticks
    ensures t in s.tasks && s.tasks[t].prio < |s.ready| && s.tasks[t].ticking
    ensures s.tasks[t].state in {Sleep, SleepSuspended, Pend, PendSuspended}
    ensures Safe(Expire(s, t)) && Expire(s, t).ticks == Remove(s.ticks, t)
    ensures s.ticks[0] == t ==> Remove(s.ticks, t) == s.ticks[1..]
  {
    hide Base, PiOk, NoneWaits, Expire, Remove, Steady;
    TickKinds(s, t);
    ReadyThere(s, None, t);
    hide Safe;
    ExpireOk(s, t);
    RemoveHead(s.ticks);
  }

  lemma LockThere(s: State, m: Oid)
    requires Inv(s) && s.nesting == 0 && m in s.objs && s.objs[m].kind == Mutex
    ensures s.active in s.tasks && s.tasks[s.active].state == Rdy
    ensures s.active != IDLE ==> s.tasks[s.active].prio < IDLE_PRI
    ensures Base(s, None)
    ensures s.objs[m].owner.Some? ==>
      var o := s.objs[m].owner.value; o in s.tasks && s.tasks[o].Live() && o != IDLE
  {
    RunnerFacts(s);
    MutexFacts(s, m);
  }

  lemma TakeIs(s: State, m: Oid, t: Tid)
    requires m in s.objs && t in s.tasks
    ensures Take(s, m, t, 1) ==
      s.(objs := s.objs[m := s.objs[m].(owner := Some(t), nested := 1)],
         tasks := s.tasks[t := s.tasks[t].(mutexes := [m] + s.tasks[t].mutexes)])
  {
  }

  lemma LockedThere(s: State, m: Oid, t: Tid, a: Tid)
    requires LockReady(s, m, t, a)
    ensures m in s.objs && t in s.tasks && s.tasks[t].prio < |s.ready|
  {
    hide Base, PiOk;
    ReadyThere(s, None, t);
  }

  /** m taken off the list of t, its count back to zero. */
  function Dropped(s: State, m: Oid, t: Tid): State { Drop(s.PutO(m, s.O(m).(nested := 0)), t, m) }

  /** What the last unlock of m relies on, step by step. */
  ghost predicate UnlockReady(s: State, m: Oid, t: Tid) {
    && t in s.tasks && HeldExist(s, t) && s.O(m).nested >= 1
    && Base(Dropped(s, m, t), Some(m)) && Climbs(Dropped(s, m, t), t, Look(Dropped(s, m, t), t), Some(m))
    && Released(Relook(Dropped(s, m, t), t), m) && m in Relook(Dropped(s, m, t), t).objs
    && Relook(Dropped(s, m, t), t).O(m).waiters == s.O(m).waiters
  }

  lemma DroppedBase(s: State, m: Oid, t: Tid)
    requires Base(s, None) && t in s.tasks && s.tasks[t].state == Rdy && t != IDLE && m in s.tasks[t].mutexes && m in s.objs
    requires s.tasks[t].bPrio < IDLE_PRI
    ensures Base(Dropped(s, m, t), Some(m)) && Climbs(Dropped(s, m, t), t, Look(Dropped(s, m, t), t), Some(m))
  {
    hide Base, Look, Remove;
    DropBase(s, t, m);
    var d := Drop(s, t, m);
    NestedBase(d, m, 0, Some(m));
    assert Dropped(s, m, t) == d.PutO(m, d.objs[m].(nested := 0));
    LookBound(Dropped(s, m, t), t);
  }

  lemma UnlockThere(s: State, m: Oid)
    requires Inv(s) && s.nesting == 0 && m in s.objs && s.objs[m].kind == Mutex && s.objs[m].owner == Some(s.active)
    ensures UnlockReady(s, m, s.active)
  {
    hide Relook, Look, Remove, PiOk, NoneWaits, ActiveOk, Released, Steady;
    var t := s.active;
    RunnerFacts(s);
    MutexFacts(s, m);
    hide Base, OwnsOk, WaitsOk;
    HeldThere(s, None, t);
    UnlockRelease(s, m, t);
    ReleasedKeys(Relook(Dropped(s, m, t), t), m);
    DroppedBase(s, m, t);
  }

  lemma WakeStep(s: State, o: Oid)
    requires Base(s, None) && PiOk(s, None) && o in s.objs && s.objs[o].kind != Mutex && s.objs[o].waiters != []
    ensures
      var w := s.objs[o].waiters[0];
      var s1 := Wakeup(s, w, BlkDel);
      && w in s.tasks && s.tasks[w].Waiting() && s.tasks[w].blkObj == Some(o) && s.tasks[w].prio < |s.ready|
      && Base(s1, None) && PiOk(s1, None) && o in s1.objs && s1.objs[o] == s.objs[o].(waiters := s.objs[o].waiters[1..])
  {
    var q := s.objs[o].waiters;
    var w := q[0];
    assert w in q;
    WaiterOf(s, o, w);
    ReadyThere(s, None, w);
    BaseTicks(s);
    DistinctWaiters(s, o);
    RemoveHead(q);
    hide Base, PiOk, Wakeup, Remove, WaitsOk, TicksOk;
    WakeupShape(s, w, BlkDel);
    WakeupPi(s, w, BlkDel, None, None);
  }

  lemma BaseTicks(s: State)
    requires Base(s, None)
    ensures TicksOk(s)
  {
  }

  lemma DistinctWaiters(s: State, o: Oid)
    requires WaitsOk(s) && o in s.objs
    ensures NoDup(s.objs[o].waiters)
  {
  }

  lemma RetireThere(s: State, m: Oid)
    requires Base(s, None) && PiOk(s, None) && m in s.objs && s.objs[m].kind == Mutex && s.objs[m].owner.Some?
    ensures
      var o := s.objs[m].owner.value;
      var s0 := s.PutO(m, s.objs[m].(kind := NoKind));
      var d := Drop(s0, o, m);
      o in s.tasks && HeldExist(s0, o) && Base(d, None) && Climbs(d, o, Look(d, o), None)
  {
    hide Relook, Look, Remove, PiOk, Base;
    MutexFacts(s, m);
    hide WaitsOk;
    var o := s.objs[m].owner.value;
    HeldThere(s, None, o);
    DelDropOwns(s, m, o);
    hide OwnsOk;
    var d := Drop(s.PutO(m, s.objs[m].(kind := NoKind)), o, m);
    DelBase(s, d, o);
    LookBound(d, o);
  }

  lemma UnblockKeeps(s: State, t: Tid, why: BlkState, toReady: bool)
    requires t in s.tasks
    ensures t in Unblock(s, t, why, toReady).tasks
  {
    hide Remove;
  }

  lemma OwnerFacts(s: State, m: Oid)
    requires Base(s, None) && m in s.objs && s.objs[m].kind == Mutex && s.objs[m].owner.Some?
    ensures var o := s.objs[m].owner.value;
      o in s.tasks && HeldExist(s, o) && Climbs(s, o, Look(s, o), None)
  {
    MutexFacts(s, m);
    hide Base, OwnsOk, WaitsOk, Look;
    LookBound(s, s.objs[m].owner.value);
    HeldThere(s, None, s.objs[m].owner.value);
  }

  /** The loop of `task_pri_change` may treat t. */
  predicate Climbs(s: State, t: Tid, p: nat, rel: Option<Oid>) {
    t in s.tasks && s.tasks[t].Live() && t != IDLE && p < IDLE_PRI && (rel == None || s.tasks[t].state == Rdy)
  }

  /** The owner o of the mutex t waits for is one the loop may move to. */
  ghost predicate OwnerClimbs(s: State, t: Tid) {
    && NextOwner(s, t).Some?
    && var o := NextOwner(s, t).value;
    && o in s.tasks && s.tasks[o].Live() && o != IDLE && Look(s, o) < IDLE_PRI && HeldExist(s, o)
  }

  /** What `mutex_pri_look` relies on. */
  ghost predicate HeldExist(s: State, o: Tid)
    requires o in s.tasks
  {
    && NoDup(s.tasks[o].mutexes) && (forall m :: m in s.tasks[o].mutexes ==> m in s.objs)
    && (forall m, w :: m in s.objs && w in s.objs[m].waiters ==> w in s.tasks)
  }

  lemma HeldThere(s: State, rel: Option<Oid>, o: Tid)
    requires Base(s, rel) && o in s.tasks && s.tasks[o].Live()
    ensures HeldExist(s, o)
  {
    hide SortedOk, ReadyOk, TicksOk, TasksOk, MutexOk;
  }

  lemma OwnerThere(s: State, t: Tid)
    requires Base(s, None) && t in s.tasks && s.tasks[t].Waiting() && s.O(s.tasks[t].blkObj.value).kind == Mutex
    ensures OwnerClimbs(s, t)
  {
    var m := s.tasks[t].blkObj.value;
    ReadyThere(s, None, t);
    MutexFacts(s, m);
    hide Base, OwnsOk, WaitsOk;
    assert s.objs[m].waiters != [];
    var o := s.objs[m].owner.value;
    LookBound(s, o);
    HeldThere(s, None, o);
  }

  lemma ReadyThere(s: State, rel: Option<Oid>, t: Tid)
    requires Base(s, rel) && t in s.tasks
    ensures |s.ready| == PRI_MAX && s.tasks[t].prio < PRI_MAX && WaitsOk(s)
    ensures s.tasks[t].Waiting() ==>
      s.tasks[t].blkObj.Some? && s.tasks[t].blkObj.value in s.objs && t in s.objs[s.tasks[t].blkObj.value].waiters
  {
    hide SortedOk, TicksOk, OwnsOk;
    assert TaskOk(t, s.tasks[t]);
  }

  /** What the loop body relies on: the invariant holds after the switch, and
      the owner it looks at next is there. */
  lemma ClimbFacts(s: State, t: Tid, p: nat, rel: Option<Oid>)
    requires Base(s, rel) && Climbs(s, t, p, rel) && s.tasks[t].prio != p
    ensures |s.ready| == PRI_MAX && s.tasks[t].prio < PRI_MAX
    ensures s.tasks[t].Waiting() ==> s.tasks[t].blkObj.Some? && s.tasks[t].blkObj.value in s.objs
    ensures
      var s1 := SetPrio(s, t, p);
      && Base(s1, rel) && s1.tasks == s.tasks[t := s.tasks[t].(prio := p)]
      && NextOwner(s1, t) == NextOwner(s, t) && (s.tasks[t].Waiting() ==> s.tasks[t].blkObj.value in s1.objs)
      && (s.tasks[t].Waiting() && s1.O(s.tasks[t].blkObj.value).kind == Mutex ==> rel == None && OwnerClimbs(s1, t))
  {
    hide Base, SetPrio, WaitsOk, Look;
    ReadyThere(s, rel, t);
    SetPrioFrame(s, t, p);
    SetPrioOnly(s, t, p);
    SetPrioBase(s, t, p, rel);
    var s1 := SetPrio(s, t, p);
    if s.tasks[t].Waiting() && s1.O(s.tasks[t].blkObj.value).kind == Mutex {
      OwnerThere(s1, t);
    }
  }

  /** What is left to look at after one more mutex. */
  lemma LookStep(s: State, ms: seq<Oid>, i: nat, rel: Option<Oid>, acc: nat)
    requires i < |ms|
    ensures
      var m, f := ms[i], FirstPrio(s, ms[i]);
      if Some(m) == rel then
        var ms1 := ms[..i] + ms[i + 1..];
        && ms1[i..] == ms[i + 1..] && ms1[..i] == ms[..i]
        && Spared(ms[i..], rel) == Spared(ms1[i..], rel)
      else
        && ms[..i] + Spared(ms[i..], rel) == ms[..i + 1] + Spared(ms[i + 1..], rel)
        && MinFirst(s, Spared(ms[i..], rel), acc) ==
           MinFirst(s, Spared(ms[i + 1..], rel), if s.O(m).waiters != [] && f < acc then f else acc)
  {
    hide Spared, FirstPrio;
    var m, tail := ms[i], ms[i + 1..];
    assert ms[i..] == [m] + tail;
    SparedCons(m, tail, rel);
    if Some(m) == rel {
      var ms1 := ms[..i] + tail;
      assert ms1[i..] == tail && ms1[..i] == ms[..i];
    } else {
      assert ms[..i + 1] == ms[..i] + [m];
      MinCons(s, m, Spared(tail, rel), acc);
    }
  }

  lemma MinCons(s: State, m: Oid, ms: seq<Oid>, acc: nat)
    ensures MinFirst(s, [m] + ms, acc) ==
      MinFirst(s, ms, if s.O(m).waiters != [] && FirstPrio(s, m) < acc then FirstPrio(s, m) else acc)
  {
    assert ([m] + ms)[1..] == ms;
  }

  lemma LookEnd(s: State, s1: State, t: Tid, ms: seq<Oid>, i: nat, rel: Option<Oid>, p: nat)
    requires i == |ms| && t in s.tasks && s1 == s.(tasks := s.tasks[t := s.tasks[t].(mutexes := ms)])
    requires Spared(s.tasks[t].mutexes, rel) == ms[..i] + Spared(ms[i..], rel)
    requires MinFirst(s, Spared(s.tasks[t].mutexes, rel), s.T(t).bPrio) == MinFirst(s, Spared(ms[i..], rel), p)
    ensures s1 == if rel.Some? then Splice(s, t, rel.value) else s
    ensures p == Look(s1, t)
  {
    assert ms[i..] == [] && ms[..i] == ms;
    assert ms + [] == ms;
    MinFrameAcc(s, s1, ms, s.T(t).bPrio);
  }

  /** A list of mutexes without the one being released. */
  function Spared(ms: seq<Oid>, rel: Option<Oid>): seq<Oid> {
    if rel.Some? then Remove(ms, rel.value) else ms
  }

  lemma SparedCons(m: Oid, ms: seq<Oid>, rel: Option<Oid>)
    ensures Spared([m] + ms, rel) == if Some(m) == rel then Spared(ms, rel) else [m] + Spared(ms, rel)
  {
    assert ([m] + ms)[1..] == ms;
  }

  lemma InsertSame(s: State, s1: State, q: seq<Tid>, t: Tid)
    requires s1.tasks == s.tasks
    ensures InsertByPrio(s1, q, t) == InsertByPrio(s, q, t)
    decreases |q|
  {
    if q != [] { InsertSame(s, s1, q[1..], t); }
  }
}
