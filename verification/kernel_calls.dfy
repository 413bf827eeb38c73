/** Every API routine keeps the kernel invariant. */
module KernelCalls {
  import opened Options
  import opened Lists
  import opened KernelState
  import opened KernelSteps
  import opened KernelInvariants
  import opened KernelInheritance
  import opened KernelWaits
  import opened KernelMutexes
  import opened KernelHandOver
  import opened KernelBlock

  /** The invariant without the claim about the running task. */
  ghost predicate Safe(s: State) {
    Base(s, None) && PiOk(s, None) && NoneWaits(s)
  }

  ghost predicate RunnerOk(s: State) {
    s.schedLock > 0 ==> s.T(s.active).state == Rdy
  }

  // ---- scheduling --------------------------------------------------------------

  /** The head of the best ready list is ready. */
  lemma PreferredReady(s: State)
    requires ReadyOk(s, None)
    ensures Preferred(s) in s.tasks && s.tasks[Preferred(s)].state == Rdy
    ensures s.T(Preferred(s)).prio == s.highest
  {
    assert ListOk(s, s.highest, None);
    assert s.ready[s.highest][0] in s.ready[s.highest];
  }

  lemma SchedInv(s: State)
    requires Safe(s) && RunnerOk(s)
    ensures Inv(CoreSched(s))
  {
    hide WaitsOk, SortedOk, OwnsOk, TicksOk, TasksOk, ReadyOk, PiAt;
    var s1 := CoreSched(s);
    PreferredReady(s);
    ActiveIn(s);
    ActiveBase(s, s1);
    hide Base, NoneWaits;
    PiSame(s, s1, None);
    SameObjs(s, s1);
  }

  lemma ActiveIn(s: State)
    requires Safe(s)
    ensures s.active in s.tasks
  {
    hide WaitsOk, SortedOk, OwnsOk, ReadyOk, TicksOk, PiOk, NoneWaits;
  }

  lemma SameObjs(s: State, s1: State)
    requires NoneWaits(s) && s1.objs == s.objs
    ensures NoneWaits(s1)
  {
  }

  /** Only the identity of the running task and the counters differ. */
  lemma ActiveBase(s: State, s1: State)
    requires Base(s, None) && s1.tasks == s.tasks && s1.objs == s.objs && s1.ready == s.ready
    requires s1.bits == s.bits && s1.highest == s.highest && s1.ticks == s.ticks && s1.active in s1.tasks
    ensures Base(s1, None)
  {
    hide WaitsOk, SortedOk, ReadyOk, OwnsOk;
    TakeLists(s, s1);
    ReadySame(s, s1);
    OwnsFrame(s, s1, None);
  }

  /** No rescheduling needed: queue, running task and its state are as before. */
  lemma ActiveSame(s: State, s1: State)
    requires ActiveOk(s) && s1.active == s.active && s1.active in s1.tasks && s1.T(s.active).state == s.T(s.active).state
    requires s1.ready == s.ready && s1.highest == s.highest && s1.nesting == s.nesting && s1.schedLock == s.schedLock
    ensures ActiveOk(s1)
  {
  }

  lemma SteadyRunner(s: State, s1: State)
    requires Steady(s, s1) && ActiveOk(s) && (s.nesting == 0 || s.schedLock > 0)
    ensures RunnerOk(s1)
  {
  }

  // ---- counters of a mutex -----------------------------------------------------

  lemma NestedBase(s: State, m: Oid, n: nat, rel: Option<Oid>)
    requires Base(s, rel) && m in s.objs && n <= NESTED_MAX && (n >= 1 || rel == Some(m))
    ensures Base(s.PutO(m, s.objs[m].(nested := n)), rel)
  {
    hide WaitsOk, SortedOk, ReadyOk, OwnsOk;
    var s1 := s.PutO(m, s.objs[m].(nested := n));
    NestedOwns(s, m, n, rel);
    TakeLists(s, s1);
    ReadySame(s, s1);
  }

  lemma NestedOwns(s: State, m: Oid, n: nat, rel: Option<Oid>)
    requires OwnsOk(s, rel) && m in s.objs && n <= NESTED_MAX && (n >= 1 || rel == Some(m))
    ensures OwnsOk(s.PutO(m, s.objs[m].(nested := n)), rel)
  {
    var s1 := s.PutO(m, s.objs[m].(nested := n));
    hide OwnsOk;
    OwnsFrame(s, s1, rel);
  }

  lemma NestedInv(s: State, m: Oid, n: nat)
    requires Inv(s) && m in s.objs && 1 <= n <= NESTED_MAX
    ensures Inv(s.PutO(m, s.objs[m].(nested := n)))
  {
    hide Base;
    var s1 := s.PutO(m, s.objs[m].(nested := n));
    NestedBase(s, m, n, None);
    PiSame(s, s1, None);
    ActiveSame(s, s1);
  }

  // ---- krhino_mutex_lock -----------------------------------------------------------

  lemma RunnerFacts(s: State)
    requires Inv(s) && s.nesting == 0
    ensures s.active in s.tasks && s.tasks[s.active].state == Rdy && s.tasks[s.active].prio < PRI_MAX
    ensures s.active != IDLE ==> s.tasks[s.active].prio < IDLE_PRI
  {
    assert TaskOk(s.active, s.tasks[s.active]);
  }

  lemma MutexFacts(s: State, m: Oid)
    requires Base(s, None) && m in s.objs && s.objs[m].kind == Mutex
    ensures MutexOk(s, m, false) && OwnsOk(s, None) && WaitsOk(s)
    ensures s.objs[m].owner.Some? ==>
      var o := s.objs[m].owner.value; o != IDLE && s.tasks[o].bPrio < IDLE_PRI
  {
    hide ReadyOk, TicksOk, SortedOk;
    if s.objs[m].owner.Some? {
      assert TaskOk(s.objs[m].owner.value, s.tasks[s.objs[m].owner.value]);
    }
  }

  lemma RelWeaken(s: State, m: Oid)
    requires OwnsOk(s, None) && s.O(m).owner.None?
    ensures OwnsOk(s, Some(m))
  {
    assert PointsToHeld(s, m);
    hide LinksOk, PointsToHeld;
    forall m' | m' in s.objs && s.objs[m'].kind == Mutex ensures MutexOk(s, m', Some(m') == Some(m)) {
      assert MutexOk(s, m', false);
    }
  }

  lemma UnownedHeld(s: State, m: Oid)
    requires OwnsOk(s, None) && m in s.objs && s.objs[m].owner.None?
    ensures forall u :: u in s.tasks && s.tasks[u].Live() ==> m !in s.tasks[u].mutexes
  {
    hide NoDup, MutexOk;
  }

  lemma LockFree(s: State, m: Oid)
    requires Inv(s) && s.nesting == 0 && s.active != IDLE
    requires m in s.objs && s.objs[m].kind == Mutex && s.objs[m].owner.None?
    ensures Inv(Take(s, m, s.active, 1))
  {
    RunnerFacts(s);
    MutexFacts(s, m);
    var s1 := Take(s, m, s.active, 1);
    assert Base(s, Some(m)) by { RelWeaken(s, m); hide OwnsOk, WaitsOk, SortedOk, ReadyOk; }
    UnownedHeld(s, m);
    hide Base, OwnsOk, WaitsOk, PiOk, NoneWaits;
    TakeBase(s, m, s.active, 1);
    TakePi(s, m, s.active, 1, None);
    TakeSteady(s, m, s.active, 1);
    SteadyNoneWaits(s, s1);
    ActiveSame(s, s1);
  }

  /** The owner a inherits p from the running task and then the running task queues up. */
  lemma RaiseOwner(s: State, a: Tid, p: nat)
    requires Base(s, None) && PiOk(s, None) && a in s.tasks && s.tasks[a].Live() && a != IDLE
    requires p < s.tasks[a].prio && p < IDLE_PRI
    ensures
      var s1 := PriChange(s, a, p);
      && Base(s1, None) && PiOk(s1, Some(a)) && PrioOnly(s, s1) && RaisedTo(s, s1, p)
      && s1.T(a).prio == p
  {
    assert WaitsOk(s);
    hide Base, IsMin, WaitsOk;
    assert PiBut(s, a, Some(a));
    PriChangePi(s, a, p, Some(a));
    PriChangeOnly(s, a, p);
    PriChangeRaises(s, a, p);
  }

  /** After the raise all first waiters of a's mutexes are at p or worse. */
  lemma RaisedFirst(s: State, s1: State, a: Tid, p: nat, m: Oid)
    requires WaitsOk(s) && SortedOk(s) && PrioOnly(s, s1) && RaisedTo(s, s1, p)
    requires a in s.tasks && PiAt(s, a) && p < s.tasks[a].prio && m in s.tasks[a].mutexes && m in s.objs && s.objs[m].policy == ByPrio
    requires p <= PRI_MAX
    ensures p <= FirstPrio(s1, m)
  {
    var q, q1 := s.objs[m].waiters, s1.objs[m].waiters;
    if q1 != [] {
      assert q1[0] in q1;
      assert q1[0] in q;
      var j :| 0 <= j < |q| && q[j] == q1[0];
      assert Sorted(s, q);
      assert s.T(q[0]).prio <= s.T(q[j]).prio;
      assert s.tasks[a].prio <= FirstPrio(s, m);
    }
  }

  /** The state in which the running task t may queue up for mutex m of owner a. */
  ghost predicate LockReady(s: State, m: Oid, t: Tid, a: Tid) {
    && Base(s, None) && PiOk(s, Some(a)) && NoneWaits(s)
    && m in s.objs && s.objs[m].kind == Mutex && s.objs[m].owner == Some(a) && s.objs[m].policy == ByPrio
    && t in s.tasks && s.tasks[t].state == Rdy && t != IDLE && t != a
    && a in s.tasks && s.tasks[a].Live() && m in s.tasks[a].mutexes
    && s.tasks[a].prio <= s.tasks[t].prio <= PRI_MAX
    && (PiAt(s, a) ||
        (s.tasks[a].prio == s.tasks[t].prio && s.tasks[a].prio <= s.tasks[a].bPrio &&
         forall m' :: m' in s.tasks[a].mutexes ==> s.tasks[a].prio <= FirstPrio(s, m')))
  }

  lemma LockReadyBlock(s: State, m: Oid, t: Tid, a: Tid, ticks: nat)
    requires LockReady(s, m, t, a)
    ensures Safe(Block(s, m, t, ticks))
  {
    hide Base, Block, IsMin, PiOk, NoneWaits;
    BlockBase(s, m, t, ticks);
    BlockPiOwner(s, m, t, ticks, a);
    MutexFacts(s, m);
    hide PiAt, OwnsOk, WaitsOk;
    BlockPi(s, m, t, ticks, Some(a));
    BlockNoneWaits(s, m, t, ticks);
  }

  lemma BlockNoneWaits(s: State, o: Oid, t: Tid, ticks: nat)
    requires NoneWaits(s) && t in s.tasks && o in s.objs && s.objs[o].kind != NoKind
    ensures NoneWaits(Block(s, o, t, ticks))
  {
    BlockShape(s, o, t, ticks);
    hide Block, InsertByPrio, InsertByTick, ReadyRm;
  }

  /** The owner already runs at least as well as the running task. */
  lemma LockPlain(s: State, m: Oid)
    requires Inv(s) && s.nesting == 0 && s.active != IDLE
    requires m in s.objs && s.objs[m].kind == Mutex && s.objs[m].owner.Some? && s.objs[m].owner != Some(s.active)
    requires s.T(s.objs[m].owner.value).prio <= s.T(s.active).prio
    ensures LockReady(s, m, s.active, s.objs[m].owner.value)
  {
    hide IsMin, NoneWaits;
    RunnerFacts(s);
    MutexFacts(s, m);
    hide Base, OwnsOk, WaitsOk;
  }

  /** The owner inherits the priority of the running task. */
  lemma LockRaise(s: State, m: Oid)
    requires Inv(s) && s.nesting == 0 && s.active != IDLE
    requires m in s.objs && s.objs[m].kind == Mutex && s.objs[m].owner.Some? && s.objs[m].owner != Some(s.active)
    requires s.T(s.active).prio < s.T(s.objs[m].owner.value).prio
    ensures LockReady(PriChange(s, s.objs[m].owner.value, s.T(s.active).prio), m, s.active, s.objs[m].owner.value)
    ensures Steady(s, PriChange(s, s.objs[m].owner.value, s.T(s.active).prio))
  {
    hide NoneWaits, PriChange, ActiveOk, Base, PrioOnly, RaisedTo, Steady, FirstPrio;
    var a, p := s.objs[m].owner.value, s.T(s.active).prio;
    var s1 := PriChange(s, a, p);
    RunnerFacts(s);
    MutexFacts(s, m);
    hide OwnsOk, WaitsOk;
    assert PiAt(s, a);
    hide PiOk;
    RaiseOwner(s, a, p);
    PrioOnlySteady(s, s1);
    SteadyNoneWaits(s, s1);
    RaisedFirsts(s, s1, a, p);
    RaisedRecords(s, s1, m, a, s.active);
  }

  lemma RaisedRecords(s: State, s1: State, m: Oid, a: Tid, t: Tid)
    requires PrioOnly(s, s1) && RaisedTo(s, s1, s.T(t).prio) && m in s.objs && a in s.tasks && t in s.tasks
    ensures s1.tasks.Keys == s.tasks.Keys && s1.objs.Keys == s.objs.Keys
    ensures s1.tasks[t] == s.tasks[t] && s1.tasks[a] == s.tasks[a].(prio := s1.tasks[a].prio)
    ensures s1.objs[m] == s.objs[m].(waiters := s1.objs[m].waiters)
  {
  }

  lemma RaisedFirsts(s: State, s1: State, a: Tid, p: nat)
    requires Base(s, None) && PrioOnly(s, s1) && RaisedTo(s, s1, p)
    requires a in s.tasks && s.tasks[a].Live() && PiAt(s, a) && p < s.tasks[a].prio && p <= PRI_MAX
    ensures forall m :: m in s.tasks[a].mutexes ==> p <= FirstPrio(s1, m)
  {
    assert WaitsOk(s) && SortedOk(s) && OwnsOk(s, None);
    hide Base, SortedOk, WaitsOk, PrioOnly, RaisedTo, PiAt, FirstPrio;
    forall m | m in s.tasks[a].mutexes ensures p <= FirstPrio(s1, m) {
      HeldFacts(s, a, m);
      MutexFacts(s, m);
      RaisedFirst(s, s1, a, p, m);
    }
  }

  lemma PrioOnlySteady(s: State, s1: State)
    requires PrioOnly(s, s1)
    ensures Steady(s, s1)
  {
  }

  lemma MutexLockInv(s: State, m: Oid, ticks: nat)
    requires Inv(s) && Enabled(s, Lock(m, ticks))
    ensures Inv(MutexLock(s, m, ticks).0)
  {
    hide Base, Block, PriChange, PiOk, NoneWaits, LockReady, CoreSched, Safe, Take, Steady;
    var b := s.O(m);
    if s.nesting == 0 && b.kind == Mutex {
      if b.owner == Some(s.active) {
        if b.nested != NESTED_MAX {
          MutexFacts(s, m);
          NestedInv(s, m, b.nested + 1);
        }
      } else if b.owner.None? {
        LockFree(s, m);
      } else if ticks != NO_WAIT && s.schedLock == 0 {
        var a, p := b.owner.value, s.T(s.active).prio;
        var s1 := if p < s.T(a).prio then PriChange(s, a, p) else s;
        if p < s.T(a).prio { LockRaise(s, m); SteadyEnv(s, s1); } else { LockPlain(s, m); }
        LockReadyBlock(s1, m, s.active, a, ticks);
        LockTask(s1, m, s.active, a);
        BlockEnv(s1, m, s.active, ticks);
        SchedInv(Block(s1, m, s.active, ticks));
      }
    }
  }

  lemma LockTask(s: State, m: Oid, t: Tid, a: Tid)
    requires LockReady(s, m, t, a)
    ensures t in s.tasks
  {
  }

  lemma SteadyEnv(s: State, s1: State)
    requires Steady(s, s1)
    ensures s1.active == s.active && s1.schedLock == s.schedLock && s1.nesting == s.nesting
  {
  }

  lemma BlockEnv(s: State, o: Oid, t: Tid, ticks: nat)
    requires t in s.tasks
    ensures
      var s1 := Block(s, o, t, ticks);
      s1.active == s.active && s1.schedLock == s.schedLock && s1.nesting == s.nesting
  {
    BlockShape(s, o, t, ticks);
    hide Block;
  }
}
