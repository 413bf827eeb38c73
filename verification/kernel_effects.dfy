/** What each call does to the tasks it is about: states, results of waiting, priorities
    and counts, field by field. */
module KernelEffects {
  import opened Options
  import opened Lists
  import opened KernelState
  import opened KernelSteps
  import opened KernelInvariants
  import opened KernelInheritance
  import opened KernelWaits
  import opened KernelMutexes
  import opened KernelHandOver
  import opened KernelBlock
  import opened KernelCalls
  import opened KernelTasks
  import opened KernelDeletion
  import opened KernelRun
  import opened KernelEffective
  import opened KernelCounts

  /** All tasks but t have the records they had, inherited priorities aside. */
  ghost predicate OnlyTask(s: State, s1: State, t: Tid) {
    && s1.tasks.Keys == s.tasks.Keys
    && forall u :: u in s.tasks && u != t ==> s1.tasks[u] == s.tasks[u].(prio := s1.tasks[u].prio)
  }

  /** In no wait list and not on the tick list. */
  ghost predicate Unlisted(s: State, t: Tid) {
    t !in s.ticks && forall o :: o in s.objs ==> t !in s.objs[o].waiters
  }

  lemma UnlistedThere(s: State, t: Tid)
    requires Inv(s) && t in s.tasks && !s.tasks[t].Waiting() && !s.tasks[t].Sleeping()
    ensures Unlisted(s, t)
  {
    hide ReadyOk, OwnsOk, SortedOk, TasksOk, PiOk, ActiveOk, NoneWaits, NoDup;
  }

  lemma SchedKeeps(s: State)
    ensures CoreSched(s) == s.(active := CoreSched(s).active)
  {
    hide Preferred;
  }

  // ---- aborted waits ------------------------------------------------------------------------

  /** A task taken out of its wait or sleep is ready, in no list, and told that it was
      aborted; nobody else is touched. */
  lemma AbortIs(s: State, t: Tid)
    requires Inv(s) && s.nesting == 0 && t in s.tasks
    ensures var (s1, r) := TaskWaitAbort(s, t); var k := s.tasks[t];
      && (r == (if k.state == Deleted then InvTaskState else Success)) && OnlyTask(s, s1, t)
      && match k.state
         case Deleted => s1 == s
         case Rdy => s1.tasks == s.tasks
         case Suspended => s1.tasks[t] == k.(state := Rdy) && Unlisted(s1, t)
         case Sleep | SleepSuspended => s1.tasks[t] == k.(state := Rdy, blkState := BlkAbort, ticking := false) && Unlisted(s1, t)
         case Pend | PendSuspended =>
           s1.tasks[t] == k.(state := Rdy, blkState := BlkAbort, ticking := false, blkObj := None, prio := s1.tasks[t].prio) && Unlisted(s1, t)
  {
    hide Inv, Unlisted, TaskWaitAbort;
    TaskWaitAbortInv(s, t);
    match s.tasks[t].state {
      case Pend | PendSuspended => AbortPending(s, t);
      case _ => AbortOther(s, t);
    }
    var s1 := TaskWaitAbort(s, t).0;
    if s1.tasks[t].state == Rdy { UnlistedThere(s1, t); }
  }

  lemma AbortOther(s: State, t: Tid)
    requires Inv(s) && s.nesting == 0 && t in s.tasks && !s.tasks[t].Waiting()
    ensures var (s1, r) := TaskWaitAbort(s, t); var k := s.tasks[t];
      && (r == (if k.state == Deleted then InvTaskState else Success)) && OnlyTask(s, s1, t)
      && match k.state
         case Deleted => s1 == s
         case Rdy => s1.tasks == s.tasks
         case Suspended => s1.tasks[t] == k.(state := Rdy)
         case Sleep | SleepSuspended => s1.tasks[t] == k.(state := Rdy, blkState := BlkAbort, ticking := false)
         case Pend | PendSuspended => true
  {
    hide Inv, CoreSched, ReadyAdd, Remove;
    var k := s.tasks[t];
    SchedKeeps(s);
    match k.state {
      case Suspended =>
        var a := s.PutT(t, k.(state := Rdy));
        ReadyAddFrame(a, t, false);
        SchedKeeps(ReadyAdd(a, t, false));
      case Sleep | SleepSuspended =>
        var s1 := TickRm(s, t);
        var a := s1.PutT(t, s1.T(t).(state := Rdy, blkState := BlkAbort));
        ReadyAddFrame(a, t, false);
        SchedKeeps(ReadyAdd(a, t, false));
      case _ =>
    }
  }

  lemma AbortPending(s: State, t: Tid)
    requires Inv(s) && s.nesting == 0 && t in s.tasks && s.tasks[t].Waiting()
    ensures var (s1, r) := TaskWaitAbort(s, t); var k := s.tasks[t];
      && r == Success && OnlyTask(s, s1, t)
      && s1.tasks[t] == k.(state := Rdy, blkState := BlkAbort, ticking := false, blkObj := None, prio := s1.tasks[t].prio)
  {
    hide Inv, CoreSched, Unblock, Reset, ClearBlk, OnlyTask, TaskWaitAbort;
    var s1 := ClearBlk(Reset(Unblock(s, t, BlkAbort, true), t), t);
    EndRecords(s, t);
    PendingAbort(s, t);
    SchedKeeps(s1);
    SchedOnly(s, s1, t);
  }

  lemma PendingAbort(s: State, t: Tid)
    requires s.nesting == 0 && s.T(t).Waiting()
    ensures TaskWaitAbort(s, t) == (CoreSched(ClearBlk(Reset(Unblock(s, t, BlkAbort, true), t), t)), Success)
  {
    hide CoreSched, Unblock, Reset, ClearBlk;
  }

  lemma EndRecords(s: State, t: Tid)
    requires Inv(s) && t in s.tasks && s.tasks[t].Waiting()
    ensures var s1, k := ClearBlk(Reset(Unblock(s, t, BlkAbort, true), t), t), s.tasks[t];
      OnlyTask(s, s1, t) && s1.T(t) == k.(state := Rdy, blkState := BlkAbort, ticking := false, blkObj := None, prio := s1.T(t).prio)
  {
    hide Inv, Unblock, Reset, ClearBlk, Remove, Base, PiOk;
    InvBase(s);
    EndWaitShape(s, t, BlkAbort, true);
    EndWaitRecord(s, t, BlkAbort, true);
    EndWaitNow(s, t, BlkAbort, true);
  }

  lemma SchedOnly(s: State, s1: State, t: Tid)
    requires OnlyTask(s, s1, t) && t in s.tasks
    ensures OnlyTask(s, CoreSched(s1), t) && t in CoreSched(s1).tasks && CoreSched(s1).tasks == s1.tasks
  {
    SchedKeeps(s1);
  }

  lemma InvBase(s: State)
    requires Inv(s)
    ensures Base(s, None) && PiOk(s, None)
  {
  }

  // ---- deleted objects ----------------------------------------------------------------------

  /** What becomes of the record of a task that is woken. */
  function Woken(k: Task, why: BlkState): Task {
    k.(ticking := false, blkState := why, blkObj := None, state := if k.state == Pend then Rdy else Suspended)
  }

  /** Everybody who waited for o is told why he does not wait any more. */
  ghost predicate AllWoken(s: State, s1: State, q: seq<Tid>, why: BlkState) {
    && s1.tasks.Keys == s.tasks.Keys
    && (forall u :: u in s.tasks && u in q ==> s1.tasks[u] == Woken(s.tasks[u], why))
    && (forall u :: u in s.tasks && u !in q ==> s1.tasks[u] == s.tasks[u])
  }

  lemma {:induction false} WakeAllIs(s: State, o: Oid, q: seq<Tid>)
    requires Base(s, None) && PiOk(s, None) && o in s.objs && s.objs[o].kind != Mutex && s.objs[o].waiters == q
    ensures var s1 := WakeAll(s, q, BlkDel); AllWoken(s, s1, q, BlkDel) && o in s1.objs && s1.objs[o].waiters == [] && s1.objs[o].kind == s.objs[o].kind
    decreases |q|
  {
    hide Base, PiOk, Wakeup, Remove, AllWoken;
    if q == [] {
      AllWokenNone(s);
    } else {
      WaiterOfOther(s, o, q[0]);
      var s1 := Wakeup(s, q[0], BlkDel);
      WakeupShape(s, q[0], BlkDel);
      WakeupPi(s, q[0], BlkDel, None, None);
      RemoveHead(q);
      WakeAllIs(s1, o, q[1..]);
      NotAgain(q);
      AllWokenOne(s, s1, WakeAll(s1, q[1..], BlkDel), q);
    }
  }

  lemma AllWokenNone(s: State)
    ensures AllWoken(s, s, [], BlkDel)
  {
  }

  lemma NotAgain(q: seq<Tid>)
    requires q != [] && NoDup(q)
    ensures q[0] !in q[1..] && q == [q[0]] + q[1..]
  {
    NoDupTail(q);
  }

  lemma AllWokenOne(s: State, s1: State, s2: State, q: seq<Tid>)
    requires q != [] && q[0] in s.tasks && q[0] !in q[1..] && q == [q[0]] + q[1..]
    requires s1.tasks == s.tasks[q[0] := Woken(s.tasks[q[0]], BlkDel)] && AllWoken(s1, s2, q[1..], BlkDel)
    ensures AllWoken(s, s2, q, BlkDel)
  {
  }

  /** Records up to priorities and lists of held mutexes. */
  ghost predicate SameRecords(s: State, s1: State) {
    && s1.tasks.Keys == s.tasks.Keys
    && forall u :: u in s.tasks ==> s1.tasks[u] == s.tasks[u].(prio := s1.tasks[u].prio, mutexes := s1.tasks[u].mutexes)
  }

  lemma RetiredRecords(s: State, m: Oid)
    requires Inv(s) && m in s.objs && s.objs[m].kind == Mutex
    ensures var s1 := Retired(s, m);
      SameRecords(s, s1) && m in s1.objs && s1.objs[m].kind == NoKind && forall y :: y in s1.objs[m].waiters <==> y in s.objs[m].waiters
  {
    hide Inv, Relook, Drop;
    if s.objs[m].owner.Some? { OwnedRecords(s, m, s.objs[m].owner.value); }
  }

  lemma OwnedRecords(s: State, m: Oid, o: Tid)
    requires Inv(s) && m in s.objs && s.objs[m].kind == Mutex && s.objs[m].owner == Some(o)
    ensures var s1 := Relook(Drop(s.PutO(m, s.O(m).(kind := NoKind)), o, m), o);
      SameRecords(s, s1) && m in s1.objs && s1.objs[m].kind == NoKind && forall y :: y in s1.objs[m].waiters <==> y in s.objs[m].waiters
  {
    hide Inv, Relook, Drop, WaitsOk, OwnsOk, PrioOnly, Base, PiOk, SameRecords, TicksOk;
    InvBase(s);
    WaitsTicks(s);
    OwnedHere(s, m);
    var s1 := Drop(s.PutO(m, s.O(m).(kind := NoKind)), o, m);
    DropWaits(s, m, o);
    DropRecords(s, m, o);
    RelookOnly(s1, o);
    RecordsOnly(s, s1, Relook(s1, o), m);
  }

  lemma DropRecords(s: State, m: Oid, o: Tid)
    requires m in s.objs && o in s.tasks
    ensures var s1 := Drop(s.PutO(m, s.O(m).(kind := NoKind)), o, m);
      SameRecords(s, s1) && m in s1.objs && s1.objs[m].kind == NoKind && s1.objs[m].waiters == s.objs[m].waiters
  {
    hide Remove, Successor;
  }

  lemma DropWaits(s: State, m: Oid, o: Tid)
    requires WaitsOk(s) && m in s.objs && o in s.tasks
    ensures WaitsOk(Drop(s.PutO(m, s.O(m).(kind := NoKind)), o, m))
  {
    hide Remove, Successor, NoDup;
  }

  lemma RelookOnly(s: State, o: Tid)
    requires WaitsOk(s)
    ensures PrioOnly(s, Relook(s, o))
  {
    hide PriChange, Look, WaitsOk;
    PriChangeOnly(s, o, Look(s, o));
  }

  lemma RecordsOnly(s: State, s1: State, s2: State, m: Oid)
    requires SameRecords(s, s1) && PrioOnly(s1, s2) && m in s1.objs && m in s.objs && s1.objs[m].kind == NoKind && s1.objs[m].waiters == s.objs[m].waiters
    ensures SameRecords(s, s2) && m in s2.objs && s2.objs[m].kind == NoKind && forall y :: y in s2.objs[m].waiters <==> y in s.objs[m].waiters
  {
  }

  /** What waiting for o that is deleted ends with: each waiter is ready, or still
      suspended, linked to nothing, and told of the deletion. */
  ghost predicate ToldOfDeletion(s: State, s1: State, o: Oid) {
    && s1.tasks.Keys == s.tasks.Keys
    && s1.O(o).kind == NoKind && s1.O(o).waiters == []
    && (forall w :: w in s.tasks && w in s.O(o).waiters ==>
          && s1.tasks[w].state == (if s.tasks[w].state == Pend then Rdy else Suspended)
          && s1.tasks[w].blkState == BlkDel && s1.tasks[w].blkObj == None && !s1.tasks[w].ticking)
    && (forall u :: u in s.tasks && u !in s.O(o).waiters ==>
          s1.tasks[u] == s.tasks[u].(prio := s1.tasks[u].prio, mutexes := s1.tasks[u].mutexes))
  }

  lemma MutexDelIs(s: State, m: Oid)
    requires Inv(s) && s.nesting == 0 && m in s.objs && s.objs[m].kind == Mutex
    ensures var (s1, r) := MutexDel(s, m);
      && r == Success && ToldOfDeletion(s, s1, m)
      && forall u :: u in s1.tasks && s1.tasks[u].Live() ==> m !in s1.tasks[u].mutexes
  {
    hide Inv, Retired, WakeAll, CoreSched, SameRecords, AllWoken, ToldOfDeletion;
    MutexDelInv(s, m);
    DelIs(s, m);
    RetiredTold(s, m);
    ToldKind(s, MutexDel(s, m).0, m);
    DeletedNotHeld(MutexDel(s, m).0, m);
  }

  lemma ToldKind(s: State, s1: State, o: Oid)
    requires ToldOfDeletion(s, s1, o)
    ensures s1.O(o).kind == NoKind
  {
  }

  lemma DelIs(s: State, m: Oid)
    requires s.nesting == 0 && m in s.objs && s.objs[m].kind == Mutex
    ensures MutexDel(s, m) == (CoreSched(WakeAll(Retired(s, m), Retired(s, m).O(m).waiters, BlkDel)), Success)
  {
    hide WakeAll, CoreSched, Relook, Drop;
  }

  lemma RetiredTold(s: State, m: Oid)
    requires Inv(s) && m in s.objs && s.objs[m].kind == Mutex
    ensures ToldOfDeletion(s, CoreSched(WakeAll(Retired(s, m), Retired(s, m).O(m).waiters, BlkDel)), m)
  {
    hide Inv, Retired, WakeAll, CoreSched, Base, PiOk, RetiredFrame;
    var s1 := Retired(s, m);
    InvBase(s);
    RetiredRecords(s, m);
    RetiredOk(s, m);
    WakeAllIs(s1, m, s1.O(m).waiters);
    SchedKeeps(WakeAll(s1, s1.O(m).waiters, BlkDel));
  }

  lemma DeletedNotHeld(s: State, m: Oid)
    requires Inv(s) && s.O(m).kind == NoKind
    ensures forall u :: u in s.tasks && s.tasks[u].Live() ==> m !in s.tasks[u].mutexes
  {
    hide ReadyOk, WaitsOk, SortedOk, TicksOk, TasksOk, PiOk, ActiveOk, NoneWaits, LinksOk, MutexesOk, NoDup;
  }

  lemma ObjDelIs(s: State, o: Oid)
    requires Inv(s) && s.nesting == 0 && o in s.objs && s.objs[o].kind == Other
    ensures var (s1, r) := ObjDel(s, o); r == Success && ToldOfDeletion(s, s1, o)
  {
    hide Inv, WakeAll, CoreSched, Base, PiOk, RetiredFrame;
    var s1 := s.PutO(o, s.O(o).(kind := NoKind));
    InvBase(s);
    RetiredFree(s, o);
    WakeAllIs(s1, o, s1.O(o).waiters);
    SchedKeeps(WakeAll(s1, s1.O(o).waiters, BlkDel));
  }

  /** A task given what it waited for is ready, or still suspended, and told so; nobody else
      is touched. */
  lemma ObjWakeIs(s: State, o: Oid, t: Tid)
    requires Inv(s) && o in s.objs && s.objs[o].kind == Other && t in s.objs[o].waiters
    ensures var (s1, r) := ObjWake(s, o, t);
      && r == Success && t in s.tasks && t in s1.tasks && OnlyTask(s, s1, t)
      && s1.tasks[t].state == (if s.tasks[t].state == Pend then Rdy else Suspended)
      && s1.tasks[t].blkState == BlkFinish && s1.tasks[t].blkObj == None && t !in s1.O(o).waiters
  {
    hide Inv, Base, PiOk, Wakeup, CoreSched, Remove, WaitsOk, TicksOk, OnlyTask, NoneWaits, ActiveOk;
    InvBase(s);
    WaitsTicks(s);
    WaiterOf(s, o, t);
    WakeupShape(s, t, BlkFinish);
    SchedKeeps(Wakeup(s, t, BlkFinish));
    PutOnly(s, CoreSched(Wakeup(s, t, BlkFinish)), t);
  }

  lemma PutOnly(s: State, s1: State, t: Tid)
    requires t in s.tasks && t in s1.tasks && s1.tasks == s.tasks[t := s1.tasks[t]]
    ensures OnlyTask(s, s1, t)
  {
  }

  lemma WaitsTicks(s: State)
    requires Inv(s)
    ensures WaitsOk(s) && TicksOk(s)
  {
  }

  // ---- priorities ---------------------------------------------------------------------------

  /** The base priority asked for is the task's from then on and nobody else's changes; a
      task that holds nothing anybody waits for runs at it. */
  lemma PriChangeIs(s: State, t: Tid, pri: nat)
    requires Inv(s) && s.nesting == 0 && t in s.tasks
    ensures var (s1, r) := TaskPriChange(s, t, pri);
      && (r == Success <==> s.tasks[t].prio < 61 && pri < 61 && s.tasks[t].state != Deleted)
      && (r != Success ==> s1 == s)
      && (r == Success ==> OnlyTask(s, s1, t) && s1.tasks[t] == s.tasks[t].(prio := s1.tasks[t].prio, bPrio := pri))
      && (r == Success && (forall m :: m in s.tasks[t].mutexes ==> s.O(m).waiters == []) ==> s1.tasks[t].prio == pri)
  {
    hide Inv, CoreSched, PriChange, MinFirst, TaskPriChange;
    TaskPriChangeInv(s, t, pri);
    PriChangeRecords(s, t, pri);
    var (s1, r) := TaskPriChange(s, t, pri);
    if r == Success && forall m :: m in s.tasks[t].mutexes ==> s.O(m).waiters == [] { FreeOfWaiters(s1, t); }
  }

  lemma PriChangeRecords(s: State, t: Tid, pri: nat)
    requires Inv(s) && s.nesting == 0 && t in s.tasks
    ensures var (s1, r) := TaskPriChange(s, t, pri);
      && (r == Success <==> s.tasks[t].prio < 61 && pri < 61 && s.tasks[t].state != Deleted)
      && (r != Success ==> s1 == s)
      && (r == Success ==> OnlyTask(s, s1, t) && s1.tasks[t] == s.tasks[t].(prio := s1.tasks[t].prio, bPrio := pri))
      && (r == Success ==> s1.objs.Keys == s.objs.Keys && forall o, y :: o in s.objs ==> (y in s1.objs[o].waiters <==> y in s.objs[o].waiters))
  {
    hide Inv, CoreSched, PriChange, MinFirst, TicksOk, WaitsOk, OnlyTask, PrioOnly;
    WaitsTicks(s);
    var limit := MinFirst(s, s.T(t).mutexes, pri);
    var s1 := s.PutT(t, s.tasks[t].(bPrio := pri));
    BaseWaits(s, t, pri);
    PriChangeOnly(s1, t, limit);
    var s2 := PriChange(s1, t, limit);
    SchedKeeps(s2);
    BaseOnly(s, CoreSched(s2), t, pri) by { SamePrioOnly(s1, s2, CoreSched(s2)); }
  }

  lemma BaseWaits(s: State, t: Tid, pri: nat)
    requires WaitsOk(s) && t in s.tasks
    ensures WaitsOk(s.PutT(t, s.tasks[t].(bPrio := pri)))
  {
    hide NoDup;
  }

  /** What a change of priorities leaves, whoever runs. */
  ghost predicate PrioApart(s: State, s1: State) {
    && s1.tasks.Keys == s.tasks.Keys && s1.objs.Keys == s.objs.Keys
    && (forall u :: u in s.tasks ==> s1.tasks[u] == s.tasks[u].(prio := s1.tasks[u].prio))
    && forall o, y :: o in s.objs ==> (y in s1.objs[o].waiters <==> y in s.objs[o].waiters)
  }

  lemma SamePrioOnly(s: State, s1: State, s2: State)
    requires PrioOnly(s, s1) && s2 == s1.(active := s2.active)
    ensures PrioApart(s, s2)
  {
  }

  lemma BaseOnly(s: State, s2: State, t: Tid, pri: nat)
    requires t in s.tasks && PrioApart(s.PutT(t, s.tasks[t].(bPrio := pri)), s2)
    ensures OnlyTask(s, s2, t) && s2.tasks[t] == s.tasks[t].(prio := s2.tasks[t].prio, bPrio := pri)
    ensures s2.objs.Keys == s.objs.Keys && forall o, y :: o in s.objs ==> (y in s2.objs[o].waiters <==> y in s.objs[o].waiters)
  {
  }

  lemma FreeOfWaiters(s: State, t: Tid)
    requires Inv(s) && t in s.tasks && s.tasks[t].Live() && forall m :: m in s.tasks[t].mutexes ==> forall y :: y !in s.O(m).waiters
    ensures s.tasks[t].prio == s.tasks[t].bPrio
  {
    hide ReadyOk, WaitsOk, SortedOk, TicksOk, OwnsOk, ActiveOk, NoneWaits;
    assert PiAt(s, t) && TaskOk(t, s.tasks[t]);
    NoneFirst(s, s.tasks[t].mutexes, s.tasks[t].bPrio, s.tasks[t].prio);
  }

  lemma NoneFirst(s: State, ms: seq<Oid>, acc: nat, v: nat)
    requires IsMin(s, ms, acc, v) && (forall m :: m in ms ==> forall y :: y !in s.O(m).waiters) && acc <= PRI_MAX
    ensures v == acc
  {
    forall m | m in ms ensures FirstPrio(s, m) == PRI_MAX {
      if s.O(m).waiters != [] { assert s.O(m).waiters[0] in s.O(m).waiters; }
    }
  }

  // ---- suspensions ----------------------------------------------------------------------------

  /** What a suspension makes of a state. */
  function Suspending(st: TaskState): TaskState {
    match st
    case Rdy => Suspended
    case Sleep => SleepSuspended
    case Pend => PendSuspended
    case _ => st
  }

  predicate Suspendable(s: State, t: Tid) {
    t in s.tasks && s.tasks[t].prio != 61 && !(t == s.active && s.schedLock > 0)
  }

  /** A first suspension stops the task in whatever state it is and counts one; a further
      one only counts, up to 255. */
  lemma SuspendIs(s: State, t: Tid)
    requires Suspendable(s, t)
    ensures var (s1, r) := TaskSuspend(s, t); var k := s.tasks[t];
      && s1.schedLock == s.schedLock && (s.schedLock > 0 ==> s1.active == s.active)
      && match k.state
         case Rdy => r == Success && s1.tasks == s.tasks[t := k.(suspends := 1, state := Suspended)]
         case Sleep => r == Success && s1.tasks == s.tasks[t := k.(suspends := 1, state := SleepSuspended)]
         case Pend => r == Success && s1.tasks == s.tasks[t := k.(suspends := 1, state := PendSuspended)]
         case Deleted => r == InvTaskState && s1 == s
         case Suspended | SleepSuspended | PendSuspended =>
           if k.suspends == 255 then r == SuspendedCountOvf && s1 == s
           else r == Success && s1.tasks == s.tasks[t := k.(suspends := k.suspends + 1)]
  {
    hide ReadyRm;
    ReadyRmFrame(s.PutT(t, s.tasks[t].(suspends := 1, state := Suspended)), t);
  }

  /** A resumption takes one off the count, and the last one gives the task its state back. */
  lemma ResumeIs(s: State, t: Tid)
    requires t in s.tasks && 1 <= s.tasks[t].suspends <= 255
    ensures var (s1, r) := TaskResume(s, t); var k := s.tasks[t];
      && s1.schedLock == s.schedLock
      && match k.state
         case Rdy | Sleep | Pend => r == TaskNotSuspended && s1 == s
         case Deleted => r == InvTaskState && s1 == s
         case Suspended | SleepSuspended | PendSuspended =>
           r == Success && s1.tasks == s.tasks[t := k.(suspends := k.suspends - 1, state :=
             if k.suspends > 1 then k.state else if k.state == Suspended then Rdy else if k.state == SleepSuspended then Sleep else Pend)]
  {
    hide ReadyAdd;
    ReadyAddFrame(s.PutT(t, s.tasks[t].(suspends := 0, state := Rdy)), t, false);
  }

  /** The state after a run of calls. */
  function Final(s: State, cs: seq<Call>): State
    decreases |cs|
  {
    if cs == [] then s else Final(Exec(s, cs[0]), cs[1..])
  }

  lemma {:induction false} FinalJoin(s: State, a: seq<Call>, b: seq<Call>)
    ensures Final(s, a + b) == Final(Final(s, a), b)
    decreases |a|
  {
    hide Exec;
    if a == [] {
      assert a + b == b;
    } else {
      FinalJoin(Exec(s, a[0]), a[1..], b);
      assert (a + b)[0] == a[0] && (a + b)[1..] == a[1..] + b;
    }
  }

  lemma {:induction false} SuspendMore(s: State, t: Tid, n: nat)
    requires Suspendable(s, t) && s.tasks[t].state in {Suspended, SleepSuspended, PendSuspended} && s.tasks[t].suspends + n <= 255
    ensures Final(s, Times(SuspendTask(t), n)).tasks == s.tasks[t := s.tasks[t].(suspends := s.tasks[t].suspends + n)]
    decreases n
  {
    hide TaskSuspend;
    if n > 0 {
      SuspendIs(s, t);
      var s1 := TaskSuspend(s, t).0;
      SuspendMore(s1, t, n - 1);
      assert ([SuspendTask(t)] + Times(SuspendTask(t), n - 1))[1..] == Times(SuspendTask(t), n - 1);
    }
  }

  lemma {:induction false} ResumeMore(s: State, t: Tid, j: nat)
    requires t in s.tasks && s.tasks[t].state in {Suspended, SleepSuspended, PendSuspended} && j < s.tasks[t].suspends <= 255
    ensures Final(s, Times(ResumeTask(t), j)).tasks == s.tasks[t := s.tasks[t].(suspends := s.tasks[t].suspends - j)]
    decreases j
  {
    hide TaskResume;
    if j > 0 {
      ResumeIs(s, t);
      var s1 := TaskResume(s, t).0;
      ResumeMore(s1, t, j - 1);
      assert ([ResumeTask(t)] + Times(ResumeTask(t), j - 1))[1..] == Times(ResumeTask(t), j - 1);
    }
  }

  /** A task suspended n times stays suspended through fewer than n resumptions; the n-th
      one gives it back the state it had. */
  lemma SuspendsCount(s: State, t: Tid, n: nat, j: nat)
    requires Suspendable(s, t) && s.tasks[t].state in {Rdy, Sleep, Pend} && 0 < n <= 255 && j < n
    ensures var s1 := Final(s, Times(SuspendTask(t), n) + Times(ResumeTask(t), j));
      s1.tasks == s.tasks[t := s.tasks[t].(suspends := n - j, state := Suspending(s.tasks[t].state))]
    ensures var s1 := Final(s, Times(SuspendTask(t), n) + Times(ResumeTask(t), n));
      s1.tasks == s.tasks[t := s.tasks[t].(suspends := 0)]
  {
    hide TaskSuspend, TaskResume, Final, Times;
    SuspendTimes(s, t, n);
    FinalJoin(s, Times(SuspendTask(t), n), Times(ResumeTask(t), j));
    FinalJoin(s, Times(SuspendTask(t), n), Times(ResumeTask(t), n));
    var s1 := Final(s, Times(SuspendTask(t), n));
    ResumeMore(s1, t, j);
    ResumeAll(s1, t, n);
  }

  lemma SuspendTimes(s: State, t: Tid, n: nat)
    requires Suspendable(s, t) && s.tasks[t].state in {Rdy, Sleep, Pend} && 0 < n <= 255
    ensures Final(s, Times(SuspendTask(t), n)).tasks == s.tasks[t := s.tasks[t].(suspends := n, state := Suspending(s.tasks[t].state))]
  {
    hide TaskSuspend;
    SuspendIs(s, t);
    var s1 := TaskSuspend(s, t).0;
    SuspendMore(s1, t, n - 1);
    assert ([SuspendTask(t)] + Times(SuspendTask(t), n - 1))[1..] == Times(SuspendTask(t), n - 1);
  }

  lemma ResumeAll(s: State, t: Tid, n: nat)
    requires t in s.tasks && s.tasks[t].state in {Suspended, SleepSuspended, PendSuspended} && s.tasks[t].suspends == n && 0 < n <= 255
    ensures Final(s, Times(ResumeTask(t), n)).tasks == s.tasks[t := s.tasks[t].(suspends := 0, state :=
      if s.tasks[t].state == Suspended then Rdy else if s.tasks[t].state == SleepSuspended then Sleep else Pend)]
  {
    hide TaskResume;
    ResumeMore(s, t, n - 1);
    var c := ResumeTask(t);
    TimesLast(c, n);
    FinalJoin(s, Times(c, n - 1), [c]);
    var s1 := Final(s, Times(c, n - 1));
    ResumeIs(s1, t);
    assert [c][1..] == [];
    assert Final(s1, [c]) == Final(Exec(s1, c), []) == Exec(s1, c);
  }

  lemma {:induction false} TimesLast(c: Call, n: nat)
    requires n > 0
    ensures Times(c, n) == Times(c, n - 1) + [c]
  {
    if n > 1 { TimesLast(c, n - 1); }
  }

  // ---- locking a mutex ------------------------------------------------------------------------

  /** A free mutex is taken, once. */
  lemma LockFreeIs(s: State, m: Oid, ticks: nat)
    requires s.nesting == 0 && m in s.objs && s.objs[m].kind == Mutex && s.objs[m].owner == None && s.active in s.tasks
    ensures MutexLock(s, m, ticks) == (s.(
      objs := s.objs[m := s.objs[m].(owner := Some(s.active), nested := 1)],
      tasks := s.tasks[s.active := s.tasks[s.active].(mutexes := [m] + s.tasks[s.active].mutexes)]), Success)
  {
  }

  /** A mutex held by another: the caller is refused, or waits for it while its owner runs at
      least as well as the caller. */
  lemma LockHeldIs(s: State, m: Oid, ticks: nat)
    requires Inv(s) && Enabled(s, Lock(m, ticks)) && s.nesting == 0 && m in s.objs && s.objs[m].kind == Mutex
    requires s.objs[m].owner.Some? && s.objs[m].owner != Some(s.active)
    ensures var (s1, r) := MutexLock(s, m, ticks); var a, o := s.active, s.objs[m].owner.value;
      && (r == NoPendWait <==> ticks == 0) && (r == SchedDisabled <==> ticks != 0 && s.schedLock > 0)
      && (r == Blocked <==> ticks != 0 && s.schedLock == 0) && (r != Blocked ==> s1 == s)
      && (r == Blocked ==> s1.T(a).state == Pend && s1.T(a).blkObj == Some(m) && a in s1.O(m).waiters && s1.active != a)
      && s1.O(m).owner == Some(o) && s1.O(m).nested == s.objs[m].nested && (r == Blocked ==> s1.T(o).prio <= s1.T(a).prio)
  {
    hide Inv, Enabled, MutexLock;
    LockStatus(s, m, ticks);
    if ticks != 0 && s.schedLock == 0 { LockBlocks(s, m, ticks); }
  }

  lemma LockStatus(s: State, m: Oid, ticks: nat)
    requires s.nesting == 0 && m in s.objs && s.objs[m].kind == Mutex && s.objs[m].owner.Some? && s.objs[m].owner != Some(s.active)
    ensures var (s1, r) := MutexLock(s, m, ticks);
      && (r == NoPendWait <==> ticks == 0) && (r == SchedDisabled <==> ticks != 0 && s.schedLock > 0)
      && (r == Blocked <==> ticks != 0 && s.schedLock == 0) && (r != Blocked ==> s1 == s)
  {
    hide PriChange, Block, CoreSched;
  }

  lemma LockBlocks(s: State, m: Oid, ticks: nat)
    requires Inv(s) && Enabled(s, Lock(m, ticks)) && s.nesting == 0 && m in s.objs && s.objs[m].kind == Mutex
    requires s.objs[m].owner.Some? && s.objs[m].owner != Some(s.active) && ticks != 0 && s.schedLock == 0
    ensures var s1 := MutexLock(s, m, ticks).0; var a, o := s.active, s.objs[m].owner.value;
      && a in s1.tasks && s1.tasks[a].state == Pend && s1.tasks[a].blkObj == Some(m) && s1.active != a && a in s1.O(m).waiters
      && s1.O(m).owner == Some(o) && s1.O(m).nested == s.objs[m].nested && s1.T(o).prio <= s1.T(a).prio
  {
    hide Inv, Enabled, MutexLock, PriChange, Block, CoreSched;
    MutexLockInv(s, m, ticks);
    LockHolder(s, m, ticks, m);
    LockRecord(s, m, ticks);
    var s1 := MutexLock(s, m, ticks).0;
    WaitsTicks(s1);
    RunnerFacts(s1);
    WaitsThere1(s1, s.active, m);
    LinkBound(s1, s.active, s.objs[m].owner.value);
  }

  lemma WaitsThere1(s: State, t: Tid, m: Oid)
    requires WaitsOk(s) && t in s.tasks && s.tasks[t].Waiting() && s.tasks[t].blkObj == Some(m) && s.O(m).kind == Mutex && s.O(m).owner.Some?
    ensures t in s.O(m).waiters && WaitsFor(s, t, s.O(m).owner.value)
  {
  }

  lemma LockRecord(s: State, m: Oid, ticks: nat)
    requires Inv(s) && s.nesting == 0 && m in s.objs && s.objs[m].kind == Mutex && s.objs[m].owner.Some? && s.objs[m].owner != Some(s.active)
    requires ticks != 0 && s.schedLock == 0
    ensures var s1 := MutexLock(s, m, ticks).0;
      s.active in s1.tasks && s1.tasks[s.active].state == Pend && s1.tasks[s.active].blkObj == Some(m) && s1.nesting == 0
  {
    hide Inv, PriChange, Block, CoreSched, WaitsOk, TicksOk, PrioOnly, MutexLock;
    RunnerFacts(s);
    WaitsTicks(s);
    var p, o := s.T(s.active).prio, s.objs[m].owner.value;
    var s1 := if p < s.T(o).prio then PriChange(s, o, p) else s;
    PriChangeOnly(s, o, p);
    KeepsKeys(s, PriChange(s, o, p));
    var s2 := Block(s1, m, s.active, ticks);
    PendedRecord(s1, m, s.active, ticks);
    SchedKeeps(s2);
    LockPath(s, m, ticks);
  }

  lemma LockPath(s: State, m: Oid, ticks: nat)
    requires s.nesting == 0 && m in s.objs && s.objs[m].kind == Mutex && s.objs[m].owner.Some? && s.objs[m].owner != Some(s.active)
    requires ticks != 0 && s.schedLock == 0
    ensures
      var p, o := s.T(s.active).prio, s.objs[m].owner.value;
      MutexLock(s, m, ticks).0 == CoreSched(Block(if p < s.T(o).prio then PriChange(s, o, p) else s, m, s.active, ticks))
  {
    hide PriChange, Block, CoreSched;
  }

  lemma PendedRecord(s: State, o: Oid, t: Tid, ticks: nat)
    requires t in s.tasks
    ensures var s1 := Block(s, o, t, ticks); t in s1.tasks && s1.tasks[t].state == Pend && s1.tasks[t].blkObj == Some(o) && s1.nesting == s.nesting
  {
    hide Block, InsertByPrio, InsertByTick, ReadyRm;
    BlockShape(s, o, t, ticks);
  }

  lemma KeepsKeys(s: State, s1: State)
    requires PrioOnly(s, s1)
    ensures s1.tasks.Keys == s.tasks.Keys && s1.nesting == s.nesting
  {
  }

  /** Waiting for any other object: the caller is refused, or waits behind all others where
      the first come is served first, and behind those that are as urgent otherwise. */
  lemma PendIs(s: State, o: Oid, ticks: nat)
    requires Inv(s) && Enabled(s, PendOn(o, ticks)) && s.nesting == 0 && o in s.objs && s.objs[o].kind == Other
    ensures var (s1, r) := ObjPend(s, o, ticks); var a, q := s.active, s.objs[o].waiters;
      && (r == NoPendWait <==> ticks == 0) && (r == SchedDisabled <==> ticks != 0 && s.schedLock > 0)
      && (r == Blocked <==> ticks != 0 && s.schedLock == 0) && (r != Blocked ==> s1 == s)
      && (r == Blocked ==> s1.T(a).state == Pend && s1.T(a).blkObj == Some(o) && s1.active != a)
      && (r == Blocked && s.objs[o].policy == Fifo ==> s1.O(o).waiters == q + [a])
      && (r == Blocked && s.objs[o].policy == ByPrio ==> s1.O(o).waiters == InsertByPrio(s, q, a) && Behind(s, q, a, InsertPlace(s, q, a)))
  {
    hide Inv, Enabled, Block, CoreSched, InsertByPrio;
    if ticks != 0 && s.schedLock == 0 {
      ObjPendInv(s, o, ticks);
      RunnerFacts(s);
      PendedRecord(s, o, s.active, ticks);
      BlockShape(s, o, s.active, ticks);
      SchedKeeps(Block(s, o, s.active, ticks));
      PendRuns(s, o, ticks);
      InsertedBehind(s, s.objs[o].waiters, s.active);
    }
  }

  lemma PendRuns(s: State, o: Oid, ticks: nat)
    requires Inv(ObjPend(s, o, ticks).0) && s.nesting == 0 && o in s.objs && s.objs[o].kind == Other && ticks != 0 && s.schedLock == 0 && s.active in s.tasks
    ensures ObjPend(s, o, ticks).0.active != s.active
  {
    hide Inv, Block, CoreSched;
    PendedRecord(s, o, s.active, ticks);
    SchedKeeps(Block(s, o, s.active, ticks));
    RunnerReady(ObjPend(s, o, ticks).0);
  }

  /** How many stand before t when it joins q. */
  function InsertPlace(s: State, q: seq<Tid>, t: Tid): (k: nat)
    ensures k <= |q|
  {
    if q == [] || s.T(q[0]).prio > s.T(t).prio then 0 else 1 + InsertPlace(s, q[1..], t)
  }

  /** t stands at place k, behind those that are as urgent or more, and the next is less so. */
  ghost predicate Behind(s: State, q: seq<Tid>, t: Tid, k: nat) {
    && k <= |q| && InsertByPrio(s, q, t) == q[..k] + [t] + q[k..]
    && (forall i :: 0 <= i < k ==> s.T(q[i]).prio <= s.T(t).prio) && (k < |q| ==> s.T(q[k]).prio > s.T(t).prio)
  }

  lemma {:induction false} InsertedBehind(s: State, q: seq<Tid>, t: Tid)
    ensures Behind(s, q, t, InsertPlace(s, q, t))
    decreases |q|
  {
    hide NoDup;
    if q != [] && s.T(q[0]).prio <= s.T(t).prio {
      InsertedBehind(s, q[1..], t);
      var k := InsertPlace(s, q[1..], t);
      assert q[..k + 1] == [q[0]] + q[1..][..k] && q[k + 1..] == q[1..][k..];
      forall i | 0 <= i < k + 1 ensures s.T(q[i]).prio <= s.T(t).prio {
        if i > 0 { assert q[1..][i - 1] == q[i]; }
      }
    }
  }

  // ---- deleted tasks ---------------------------------------------------------------------------

  /** A deleted task is in no list, and every mutex it held has another owner or none. */
  lemma TaskDelIsDone(s: State, which: Option<Tid>)
    requires Inv(s) && s.nesting == 0
    requires var t := if which.Some? then which.value else s.active;
      t in s.tasks && s.tasks[t].Live() && s.tasks[t].prio != 61 && !(t == s.active && s.schedLock > 0)
    ensures var t := if which.Some? then which.value else s.active; var (s1, r) := TaskDel(s, which);
      && r == Success && t in s1.tasks && s1.tasks[t].state == Deleted && Unlisted(s1, t) && s1.active != t
      && forall m :: m in s1.objs && s1.objs[m].kind == Mutex ==> s1.objs[m].owner != Some(t)
  {
    hide Inv, Unlisted, TaskDel, Epitaph, Bury, FreeMutexes, CoreSched, DelRefused;
    var t := if which.Some? then which.value else s.active;
    TaskDelStatus(s, which);
    TaskDelInv(s, which) by { LiveEnabled(s, which); }
    DelGone(s, t) by { NotRefused(s, t); }
    TaskDelIs(s, which);
    NotRefused(s, t);
    var s1 := TaskDel(s, which).0;
    UnlistedThere(s1, t);
    OwnersLive(s1, t);
    RunnerReady(s1);
  }

  lemma RunnerReady(s: State)
    requires Inv(s) && s.nesting == 0
    ensures s.active in s.tasks && s.tasks[s.active].state == Rdy
  {
    RunnerFacts(s);
  }

  lemma NotRefused(s: State, t: Tid)
    requires s.nesting == 0 && s.T(t).prio != 61 && !(t == s.active && s.schedLock > 0)
    ensures !DelRefused(s, t)
  {
  }

  lemma LiveEnabled(s: State, which: Option<Tid>)
    requires s.T(if which.Some? then which.value else s.active).Live()
    ensures Enabled(s, DelTask(which))
  {
  }

  lemma TaskDelStatus(s: State, which: Option<Tid>)
    requires s.nesting == 0
    requires var t := if which.Some? then which.value else s.active;
      s.T(t).Live() && s.T(t).prio != 61 && !(t == s.active && s.schedLock > 0)
    ensures TaskDel(s, which).1 == Success
  {
    hide CoreSched, FreeMutexes, Bury, Epitaph, FreeStale, StaleList;
  }

  lemma DelGone(s: State, t: Tid)
    requires Inv(s) && !DelRefused(s, t) && t in s.tasks && s.tasks[t].Live()
    ensures var ms := s.tasks[t].mutexes; var s1 := CoreSched(Epitaph(Bury(FreeMutexes(s, t, ms), t), t, ms));
      t in s1.tasks && !s1.tasks[t].Live() && s1.nesting == s.nesting == 0
  {
    hide Inv, Base, PiOk, NoneWaits, RunnerOk, FreeMutexes, Bury, CoreSched;
    var ms := s.tasks[t].mutexes;
    DelLive(s, t);
    DelNesting(s, t);
    SchedKeeps(Epitaph(Bury(FreeMutexes(s, t, ms), t), t, ms));
  }

  lemma DelNesting(s: State, t: Tid)
    ensures Epitaph(Bury(FreeMutexes(s, t, s.T(t).mutexes), t), t, s.T(t).mutexes).nesting == s.nesting
  {
    hide FreeMutexes, Bury, Epitaph, Quiet;
    var ms := s.T(t).mutexes;
    var m: Oid := Fresh(ms);
    var s1 := FreeMutexes(s, t, ms);
    FreeMutexesQuiet(s, t, ms, m);
    BuryQuiet(s1, t, m);
    EpitaphQuiet(Bury(s1, t), t, ms, m);
    QuietTrans(s, s1, Bury(s1, t), m);
    QuietTrans(s, Bury(s1, t), Epitaph(Bury(s1, t), t, ms), m);
    QuietCounters(s, Epitaph(Bury(s1, t), t, ms), m);
  }

  lemma QuietCounters(s: State, s1: State, m: Oid)
    requires Quiet(s, s1, m)
    ensures s1.nesting == s.nesting && s1.schedLock == s.schedLock && s1.active == s.active
  {
  }

  /** A number that is no member's. */
  function Fresh(ms: seq<Oid>): (m: Oid)
    ensures forall x :: x in ms ==> x < m
  {
    if ms == [] then 0
    else
      assert ms == [ms[0]] + ms[1..];
      if ms[0] < Fresh(ms[1..]) then Fresh(ms[1..]) else ms[0] + 1
  }

  lemma OwnersLive(s: State, t: Tid)
    requires Inv(s) && t in s.tasks && !s.tasks[t].Live()
    ensures forall m :: m in s.objs && s.objs[m].kind == Mutex ==> s.objs[m].owner != Some(t)
  {
    hide WaitsOk, SortedOk, ReadyOk, TicksOk, TasksOk, PiOk, ActiveOk, NoneWaits, LinksOk, HoldsOk;
    forall m | m in s.objs && s.objs[m].kind == Mutex ensures s.objs[m].owner != Some(t) { assert MutexOk(s, m, false); }
  }

  // ---- taking turns ----------------------------------------------------------------------------

  /** The task that runs when the best ready list is q. */
  predicate Running(s: State, q: seq<Tid>) {
    && s.nesting == 0 && s.schedLock == 0 && q != [] && s.active == q[0]
    && s.highest < |s.ready| && s.ready[s.highest] == q && s.T(s.active).prio == s.highest
  }

  /** So it is whenever the scheduler is free. */
  lemma RunningThere(s: State)
    requires Inv(s) && s.nesting == 0 && s.schedLock == 0
    ensures s.highest < |s.ready| && Running(s, s.ready[s.highest]) && forall t :: t in s.ready[s.highest] ==> s.T(t).prio == s.highest
  {
    hide WaitsOk, SortedOk, TicksOk, OwnsOk, PiOk, NoneWaits, NoDup;
    assert IDLE in s.tasks && TaskOk(IDLE, s.tasks[IDLE]);
    assert ListOk(s, IDLE_PRI, None);
    assert ListOk(s, s.highest, None);
  }

  /** Giving up the CPU puts the running task behind the others of its priority, and the
      next of them runs. */
  lemma YieldIs(s: State, q: seq<Tid>)
    requires Running(s, q) && forall t :: t in q ==> s.T(t).prio == s.highest
    ensures var (s1, r) := TaskYield(s);
      && r == Success && Running(s1, q[1..] + [q[0]]) && s1.tasks == s.tasks && s1.highest == s.highest
  {
    assert (q[1..] + [q[0]])[0] in q;
  }

  /** When its time slice is used up the running task goes behind the others of its priority,
      and the next of them runs once the interrupt is over; alone, it runs on. */
  lemma SliceIs(s: State, q: seq<Tid>)
    requires s.nesting == 1 && s.schedLock == 0 && q != [] && s.active == q[0] && s.T(s.active).prio == s.highest
    requires s.highest < |s.ready| && s.ready[s.highest] == q
    ensures var s1 := IntrptExit(TimeSlice(s));
      && s1.active == (if |q| > 1 then q[1] else q[0]) && s1.tasks == s.tasks && s1.nesting == 0
      && s1.ready == s.ready[s.highest := q[1..] + [q[0]]]
  {
    if |q| == 1 { assert q[1..] + [q[0]] == q; }
  }

  /** As many calls as there are tasks of the best priority let each of them run, in order,
      and then the first again. */
  lemma {:induction false} RoundRobin(s: State, q: seq<Tid>, k: nat)
    requires Running(s, q) && k <= |q| && forall t :: t in q ==> s.T(t).prio == s.highest
    ensures Running(Final(s, Times(Yield, k)), q[k..] + q[..k])
    ensures Final(s, Times(Yield, k)).active == if k < |q| then q[k] else q[0]
    ensures Final(s, Times(Yield, k)).tasks == s.tasks && Final(s, Times(Yield, k)).highest == s.highest
    decreases k
  {
    if k == 0 {
      assert q[0..] + q[..0] == q;
    } else {
      hide TaskYield, Final, Times;
      RoundRobin(s, q, k - 1);
      var s1, q1 := Final(s, Times(Yield, k - 1)), q[k - 1..] + q[..k - 1];
      forall t | t in q1 ensures s1.T(t).prio == s1.highest { assert t in q; }
      YieldIs(s1, q1);
      OneYield(s, k);
      Turned(q, k);
    }
  }

  lemma OneYield(s: State, k: nat)
    requires k > 0
    ensures Final(s, Times(Yield, k)) == TaskYield(Final(s, Times(Yield, k - 1))).0
  {
    hide TaskYield;
    TimesLast(Yield, k);
    FinalJoin(s, Times(Yield, k - 1), [Yield]);
    var s1 := Final(s, Times(Yield, k - 1));
    assert [Yield][1..] == [];
    assert Final(s1, [Yield]) == Final(Exec(s1, Yield), []) == TaskYield(s1).0;
  }

  lemma Turned(q: seq<Tid>, k: nat)
    requires 0 < k <= |q|
    ensures var q1 := q[k - 1..] + q[..k - 1]; q1[1..] + [q1[0]] == q[k..] + q[..k]
    ensures (q[k..] + q[..k])[0] == if k < |q| then q[k] else q[0]
  {
  }
}
