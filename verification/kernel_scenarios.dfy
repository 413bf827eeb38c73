/** Two runs from a start-up state: a deadlock that keeps an inherited priority alive,
    and a task deleted twice. */
module KernelScenarios {
  import opened Options
  import opened Lists
  import opened KernelState
  import opened KernelSteps
  import opened KernelInvariants
  import opened KernelInheritance
  import opened KernelDeletion
  import opened KernelRun
  import opened KernelEffective

  /** Ready lists, empty but for those in q. */
  function Queues(q: map<nat, seq<Tid>>): (r: seq<seq<Tid>>)
    ensures |r| == PRI_MAX && forall p :: 0 <= p < PRI_MAX ==> r[p] == if p in q then q[p] else []
  {
    seq(PRI_MAX, p => if p in q then q[p] else [])
  }

  lemma QueuesPut(q: map<nat, seq<Tid>>, p: nat, l: seq<Tid>)
    requires p < PRI_MAX
    ensures Queues(q)[p := l] == Queues(q[p := l])
  {
  }

  lemma {:induction false} LeastIs(bits: set<nat>, p: nat, b: nat)
    requires p <= b < PRI_MAX && b in bits && forall x :: p <= x < b ==> x !in bits
    ensures LeastFrom(bits, p) == b
    decreases b - p
  {
    if p < b { LeastIs(bits, p + 1, b); }
  }

  lemma RunCons(s: State, c: Call, cs: seq<Call>, s1: State)
    requires Enabled(s, c) && Run(Exec(s, c), cs, s1)
    ensures Run(s, [c] + cs, s1)
  {
    hide Exec, Enabled;
    assert ([c] + cs)[1..] == cs;
  }

  const IDLE_TASK := Task(Rdy, IDLE_PRI, IDLE_PRI, None, BlkFinish, [], 0, 0, false)
  const FREE_MUTEX := Obj(Mutex, ByPrio, [], None, 0, None)

  function Fresh(state: TaskState, pri: nat): Task {
    Task(state, pri, pri, None, BlkFinish, [], if state == Suspended then 1 else 0, 0, false)
  }

  // ---- deadlock ------------------------------------------------------------------

  function Held(t: Tid, waiters: seq<Tid>): Obj { Obj(Mutex, ByPrio, waiters, Some(t), 1, None) }

  function Dead(t1: Task, t2: Task, m1: Obj, m2: Obj, q: map<nat, seq<Tid>>, bits: set<nat>, highest: nat, active: Tid): State {
    State(map[IDLE := IDLE_TASK, 1 := t1, 2 := t2], map[1 := m1, 2 := m2], Queues(q), bits, highest, [], 0, active, 0, 0)
  }

  /** Task 1 runs, task 2 is suspended. */
  function Dead0(): State {
    Dead(Fresh(Rdy, 10), Fresh(Suspended, 5), FREE_MUTEX, FREE_MUTEX,
         map[10 := [1], IDLE_PRI := [IDLE]], {10, IDLE_PRI}, 10, 1)
  }

  /** Task 1 has locked mutex 1. */
  function Dead1(): State {
    Dead(Fresh(Rdy, 10).(mutexes := [1]), Fresh(Suspended, 5), Held(1, []), FREE_MUTEX,
         map[10 := [1], IDLE_PRI := [IDLE]], {10, IDLE_PRI}, 10, 1)
  }

  /** Task 2 has been resumed and runs. */
  function Dead2(): State {
    Dead(Fresh(Rdy, 10).(mutexes := [1]), Fresh(Rdy, 5), Held(1, []), FREE_MUTEX,
         map[5 := [2], 10 := [1], IDLE_PRI := [IDLE]], {5, 10, IDLE_PRI}, 5, 2)
  }

  /** Task 2 has locked mutex 2. */
  function Dead3(): State {
    Dead(Fresh(Rdy, 10).(mutexes := [1]), Fresh(Rdy, 5).(mutexes := [2]), Held(1, []), Held(2, []),
         map[5 := [2], 10 := [1], IDLE_PRI := [IDLE]], {5, 10, IDLE_PRI}, 5, 2)
  }

  /** Task 1 has taken over priority 5. */
  function Raised(): State {
    Dead(Fresh(Rdy, 10).(mutexes := [1], prio := 5), Fresh(Rdy, 5).(mutexes := [2]), Held(1, []), Held(2, []),
         map[5 := [2, 1], 10 := [], IDLE_PRI := [IDLE]], {5, IDLE_PRI}, 5, 2)
  }

  /** Task 2 waits for mutex 1. */
  function Dead4(): State {
    Dead(Fresh(Rdy, 10).(mutexes := [1], prio := 5), Fresh(Pend, 5).(mutexes := [2], blkObj := Some(1)), Held(1, [2]), Held(2, []),
         map[5 := [1], 10 := [], IDLE_PRI := [IDLE]], {5, IDLE_PRI}, 5, 1)
  }

  /** Task 1 waits for mutex 2. */
  function Dead5(): State {
    Dead(Fresh(Pend, 10).(mutexes := [1], prio := 5, blkObj := Some(2)), Fresh(Pend, 5).(mutexes := [2], blkObj := Some(1)),
         Held(1, [2]), Held(2, [1]), map[5 := [], 10 := [], IDLE_PRI := [IDLE]], {IDLE_PRI}, IDLE_PRI, IDLE)
  }

  /** The base priority of task 2 has been lowered, and nothing follows. */
  function Deadlocked(): State {
    Dead(Fresh(Pend, 10).(mutexes := [1], prio := 5, blkObj := Some(2)), Fresh(Pend, 12).(mutexes := [2], prio := 5, blkObj := Some(1)),
         Held(1, [2]), Held(2, [1]), map[5 := [], 10 := [], IDLE_PRI := [IDLE]], {IDLE_PRI}, IDLE_PRI, IDLE)
  }

  lemma TakeFirst(s: State, m: Oid, t: Tid, s1: State)
    requires t in s.tasks && m in s.objs && s.tasks[t].mutexes == []
    requires s1 == s.(tasks := s.tasks[t := s.tasks[t].(mutexes := [m])], objs := s.objs[m := s.objs[m].(owner := Some(t), nested := 1)])
    ensures Take(s, m, t, 1) == s1
  {
    assert [m] + [] == [m];
  }

  lemma DeadLocks()
    ensures Enabled(Dead0(), Lock(1, WAIT_FOREVER)) && Exec(Dead0(), Lock(1, WAIT_FOREVER)) == Dead1()
    ensures Enabled(Dead2(), Lock(2, WAIT_FOREVER)) && Exec(Dead2(), Lock(2, WAIT_FOREVER)) == Dead3()
  {
    hide Queues;
    TakeFirst(Dead0(), 1, 1, Dead1());
    TakeFirst(Dead2(), 2, 2, Dead3());
  }

  lemma DeadResumed()
    ensures Enabled(Dead1(), ResumeTask(2)) && Exec(Dead1(), ResumeTask(2)) == Dead2()
  {
    var q := map[10 := [1], IDLE_PRI := [IDLE]];
    QueuesPut(q, 5, [2]);
    assert q[5 := [2]] == map[5 := [2], 10 := [1], IDLE_PRI := [IDLE]];
    var s, s1 := Dead1(), Dead2();
    assert s.ready == Queues(q) && s.ready[5] == [];
    hide Queues;
    assert s1.bits == s.bits + {5};
    assert s1.tasks == s.tasks[2 := Fresh(Rdy, 5)];
    assert Resumed(s, 2).(active := 2) == s1;
  }

  /** A lone ready task t moves to the end of another ready list. */
  lemma RaiseLone(s: State, t: Tid, p: nat)
    requires t in s.tasks && s.tasks[t].state == Rdy && t != s.active && p < s.tasks[t].prio < |s.ready|
    requires s.ready[s.tasks[t].prio] == [t] && s.ready[p] != [] && s.highest == p
    ensures
      var old_ := s.tasks[t].prio;
      PriChange(s, t, p) == s.(tasks := s.tasks[t := s.tasks[t].(prio := p)],
        ready := s.ready[old_ := []][p := s.ready[p] + [t]], bits := s.bits - {old_})
  {
  }

  lemma QueuesRaised()
    ensures
      var q := map[5 := [2], 10 := [1], IDLE_PRI := [IDLE]];
      Queues(q)[10 := []][5 := [2, 1]] == Queues(map[5 := [2, 1], 10 := [], IDLE_PRI := [IDLE]])
  {
    var q := map[5 := [2], 10 := [1], IDLE_PRI := [IDLE]];
    QueuesPut(q, 10, []);
    QueuesPut(q[10 := []], 5, [2, 1]);
    hide Queues;
    assert q[10 := []][5 := [2, 1]] == map[5 := [2, 1], 10 := [], IDLE_PRI := [IDLE]];
  }

  lemma DeadRaised()
    ensures PriChange(Dead3(), 1, 5) == Raised()
  {
    hide PriChange, Queues;
    RaiseLone(Dead3(), 1, 5);
    QueuesRaised();
    assert [2] + [1] == [2, 1];
    var s, s1 := Dead3(), Raised();
    assert s1.bits == s.bits - {10};
    assert s1.tasks == s.tasks[1 := s.tasks[1].(prio := 5)];
  }

  /** t, first of its ready list, is the first to wait for o. */
  lemma BlockFirst(s: State, o: Oid, t: Tid)
    requires t in s.tasks && s.tasks[t].prio < |s.ready| && o in s.objs && s.objs[o].waiters == [] && s.objs[o].policy == ByPrio
    requires var q := s.ready[s.tasks[t].prio]; q != [] && q[0] == t && NoDup(q)
    ensures
      var s1, p := Block(s, o, t, WAIT_FOREVER), s.tasks[t].prio;
      && s1 == s.(tasks := s.tasks[t := s.tasks[t].(state := Pend, blkObj := Some(o))],
                  objs := s.objs[o := s.objs[o].(waiters := [t])],
                  ready := s.ready[p := s.ready[p][1..]], bits := s1.bits, highest := s1.highest)
      && s1.bits == (if |s.ready[p]| > 1 then s.bits else s.bits - {p})
      && s1.highest == (if |s.ready[p]| > 1 || p != s.highest then s.highest else LeastFrom(s1.bits, 0))
  {
    hide LeastFrom;
    RemoveHead(s.ready[s.tasks[t].prio]);
    hide Remove;
    var s2 := s.PutT(t, s.T(t).(blkObj := Some(o))).PutT(t, s.T(t).(blkObj := Some(o), state := Pend));
    var s3 := ReadyRm(s2, t);
    assert InsertByPrio(s3, [], t) == [t];
  }

  /** Locking an owned mutex blocks the running task. */
  lemma LockBlocks(s: State, m: Oid)
    requires s.nesting == 0 && s.schedLock == 0 && m in s.objs && s.objs[m].kind == Mutex && s.active != IDLE
    requires s.objs[m].owner.Some? && s.objs[m].owner.value != s.active
    ensures Enabled(s, Lock(m, WAIT_FOREVER))
    ensures
      var o, p := s.objs[m].owner.value, s.T(s.active).prio;
      Exec(s, Lock(m, WAIT_FOREVER)) == CoreSched(Block(if p < s.T(o).prio then PriChange(s, o, p) else s, m, s.active, WAIT_FOREVER))
  {
    hide Block, PriChange, CoreSched;
  }

  lemma DeadBlocked()
    ensures Enabled(Dead3(), Lock(1, WAIT_FOREVER)) && Exec(Dead3(), Lock(1, WAIT_FOREVER)) == Dead4()
  {
    hide PriChange, Block, Exec, Enabled;
    LockBlocks(Dead3(), 1);
    DeadRaised();
    BlockFirst(Raised(), 1, 2);
    var q := map[5 := [2, 1], 10 := [], IDLE_PRI := [IDLE]];
    QueuesPut(q, 5, [1]);
    assert q[5 := [1]] == map[5 := [1], 10 := [], IDLE_PRI := [IDLE]];
    assert [2, 1][1..] == [1];
  }

  lemma QueuesClosed()
    ensures
      var q := Queues(map[5 := [1], 10 := [], IDLE_PRI := [IDLE]]);
      q[5] == [1] && q[5 := q[5][1..]] == Queues(map[5 := [], 10 := [], IDLE_PRI := [IDLE]])
  {
    var q := map[5 := [1], 10 := [], IDLE_PRI := [IDLE]];
    QueuesPut(q, 5, []);
    assert q[5 := []] == map[5 := [], 10 := [], IDLE_PRI := [IDLE]];
    assert Queues(q)[5][1..] == [];
  }

  lemma DeadClosed()
    ensures Enabled(Dead4(), Lock(2, WAIT_FOREVER)) && Exec(Dead4(), Lock(2, WAIT_FOREVER)) == Dead5()
  {
    hide PriChange, Block, Exec, Enabled, LeastFrom, Queues;
    QueuesClosed();
    LockBlocks(Dead4(), 2);
    BlockFirst(Dead4(), 2, 1);
    LeastIs({IDLE_PRI}, 0, IDLE_PRI);
    var s, s1 := Dead4(), Dead5();
    assert s1.bits == s.bits - {5};
    assert s1.tasks == s.tasks[1 := s.tasks[1].(state := Pend, blkObj := Some(2))];
    assert s1.objs == s.objs[2 := s.objs[2].(waiters := [1])];
    var r := Block(s, 2, 1, WAIT_FOREVER);
    assert r.highest == IDLE_PRI && s1 == r.(active := IDLE);
    assert r.ready[IDLE_PRI] == [IDLE];
    assert CoreSched(r) == s1;
  }

  lemma DeadLowered()
    ensures Enabled(Dead5(), ChangePri(2, 12)) && Exec(Dead5(), ChangePri(2, 12)) == Deadlocked()
  {
    hide Queues;
    var s := Dead5();
    assert MinFirst(s, [2], 12) == MinFirst(s, [2][1..], 5) == 5;
    assert PriChange(s.PutT(2, s.T(2).(bPrio := 12)), 2, 5) == Deadlocked();
  }

  lemma DeadInitial()
    ensures Initial(Dead0())
  {
    var s := Dead0();
    assert IndexOk(s);
    forall p | 0 <= p < PRI_MAX ensures ListOk(s, p, None) {}
  }

  lemma DeadCycle()
    ensures OnCycle(Deadlocked(), 1)
  {
    hide Queues;
    assert Cycle(Deadlocked(), 1, [1, 2, 1]);
  }

  /** The cycle matters: in a state the kernel reaches, with task 1 on a cycle, every
      priority is the inherited one, and yet task 1 runs better than any task there is has
      as its base. */
  lemma DeadlockKeepsPriority()
    ensures
      var s := Deadlocked();
      && Initial(Dead0())
      && Run(Dead0(), [Lock(1, WAIT_FOREVER), ResumeTask(2), Lock(2, WAIT_FOREVER), Lock(1, WAIT_FOREVER), Lock(2, WAIT_FOREVER), ChangePri(2, 12)], s)
      && Inv(s) && s.tasks[1].Live() && OnCycle(s, 1)
      && forall t :: t in s.tasks ==> s.tasks[1].prio < s.tasks[t].bPrio
  {
    DeadInitial();
    DeadLocks(); DeadResumed(); DeadBlocked(); DeadClosed(); DeadLowered();
    hide Exec, Enabled, Initial, Inv, Queues, OnCycle;
    var s := Deadlocked();
    assert Run(s, [], s);
    RunCons(Dead5(), ChangePri(2, 12), [], s);
    RunCons(Dead4(), Lock(2, WAIT_FOREVER), [ChangePri(2, 12)], s);
    RunCons(Dead3(), Lock(1, WAIT_FOREVER), [Lock(2, WAIT_FOREVER), ChangePri(2, 12)], s);
    hide Run, Dead;
    RunCons(Dead2(), Lock(2, WAIT_FOREVER), [Lock(1, WAIT_FOREVER), Lock(2, WAIT_FOREVER), ChangePri(2, 12)], s);
    RunCons(Dead1(), ResumeTask(2), [Lock(2, WAIT_FOREVER), Lock(1, WAIT_FOREVER), Lock(2, WAIT_FOREVER), ChangePri(2, 12)], s);
    RunCons(Dead0(), Lock(1, WAIT_FOREVER), [ResumeTask(2), Lock(2, WAIT_FOREVER), Lock(1, WAIT_FOREVER), Lock(2, WAIT_FOREVER), ChangePri(2, 12)], s);
    DeadCycle();
    InitialInv(Dead0());
    RunInv(Dead0(), [Lock(1, WAIT_FOREVER), ResumeTask(2), Lock(2, WAIT_FOREVER), Lock(1, WAIT_FOREVER), Lock(2, WAIT_FOREVER), ChangePri(2, 12)], s);
  }

  // ---- deleting twice ------------------------------------------------------------

  /** Task 1 runs; task 2 is ready. */
  function Twice0(): State {
    Dead(Fresh(Rdy, 10), Fresh(Rdy, 20), FREE_MUTEX, FREE_MUTEX,
         map[10 := [1], 20 := [2], IDLE_PRI := [IDLE]], {10, 20, IDLE_PRI}, 10, 1)
  }

  /** Task 1 has locked mutex 1. */
  function Twice1(): State {
    Dead(Fresh(Rdy, 10).(mutexes := [1]), Fresh(Rdy, 20), Held(1, []), FREE_MUTEX,
         map[10 := [1], 20 := [2], IDLE_PRI := [IDLE]], {10, 20, IDLE_PRI}, 10, 1)
  }

  /** Task 1 has suspended itself. */
  function Twice2(): State {
    Dead(Fresh(Suspended, 10).(mutexes := [1]), Fresh(Rdy, 20), Held(1, []), FREE_MUTEX,
         map[10 := [], 20 := [2], IDLE_PRI := [IDLE]], {20, IDLE_PRI}, 20, 2)
  }

  /** Task 2 has deleted task 1: the mutex is free, the pointer to it remains. */
  function Twice3(): State {
    Dead(Fresh(Suspended, 10).(mutexes := [1], state := Deleted), Fresh(Rdy, 20), Held(1, []).(owner := None), FREE_MUTEX,
         map[10 := [], 20 := [2], IDLE_PRI := [IDLE]], {20, IDLE_PRI}, 20, 2)
  }

  /** Task 2 has locked the mutex. */
  function Twice4(): State {
    Dead(Fresh(Suspended, 10).(mutexes := [1], state := Deleted), Fresh(Rdy, 20).(mutexes := [1]), Held(2, []), FREE_MUTEX,
         map[10 := [], 20 := [2], IDLE_PRI := [IDLE]], {20, IDLE_PRI}, 20, 2)
  }

  /** Task 2 has deleted task 1 once more: the mutex is in its list but has no owner. */
  function Twice5(): State {
    Dead(Fresh(Suspended, 10).(mutexes := [1], state := Deleted), Fresh(Rdy, 20).(mutexes := [1]), Held(2, []).(owner := None), FREE_MUTEX,
         map[10 := [], 20 := [2], IDLE_PRI := [IDLE]], {20, IDLE_PRI}, 20, 2)
  }

  lemma TwiceInitial()
    ensures Initial(Twice0())
  {
    var s := Twice0();
    assert IndexOk(s);
    forall p | 0 <= p < PRI_MAX ensures ListOk(s, p, None) {}
  }

  lemma TwiceLocks()
    ensures Enabled(Twice0(), Lock(1, WAIT_FOREVER)) && Exec(Twice0(), Lock(1, WAIT_FOREVER)) == Twice1()
    ensures Enabled(Twice3(), Lock(1, WAIT_FOREVER)) && Exec(Twice3(), Lock(1, WAIT_FOREVER)) == Twice4()
  {
    hide Queues;
    TakeFirst(Twice0(), 1, 1, Twice1());
    TakeFirst(Twice3(), 1, 2, Twice4());
  }

  lemma QueuesSuspended()
    ensures
      var q := Queues(map[10 := [1], 20 := [2], IDLE_PRI := [IDLE]]);
      q[10] == [1] && q[10 := []] == Queues(map[10 := [], 20 := [2], IDLE_PRI := [IDLE]])
  {
    var q := map[10 := [1], 20 := [2], IDLE_PRI := [IDLE]];
    QueuesPut(q, 10, []);
    assert q[10 := []] == map[10 := [], 20 := [2], IDLE_PRI := [IDLE]];
  }

  lemma TwiceSuspended()
    ensures Enabled(Twice1(), SuspendTask(1)) && Exec(Twice1(), SuspendTask(1)) == Twice2()
  {
    hide LeastFrom, Queues, Remove;
    QueuesSuspended();
    assert {10, 20, IDLE_PRI} - {10} == {20, IDLE_PRI};
    LeastIs({20, IDLE_PRI}, 0, 20);
    var s := Twice1();
    var s1 := ReadyRm(s.PutT(1, s.T(1).(suspends := 1, state := Suspended)), 1);
    assert s1.(active := 2) == Twice2();
  }

  lemma TwiceFreed()
    ensures FreeMutexes(Twice2(), 1, [1]) == Twice2().PutT(1, Fresh(Suspended, 10)).PutO(1, Held(1, []).(owner := None))
  {
    hide Queues;
    assert Successor([1], 1) == None && Remove([1], 1) == [];
    assert [1][1..] == [];
    var s := Drop(Twice2(), 1, 1);
    assert HandOver(s, 1, 1) == s.PutO(1, Held(1, []).(owner := None));
  }

  lemma TwiceDeleted()
    ensures Enabled(Twice2(), DelTask(Some(1))) && Exec(Twice2(), DelTask(Some(1))) == Twice3()
  {
    hide Queues;
    var s := Twice2();
    TwiceFreed();
    hide FreeMutexes;
    var s1 := FreeMutexes(s, 1, [1]);
    assert Epitaph(Bury(s1, 1), 1, [1]) == Twice3();
  }

  lemma TwiceStale()
    ensures StaleList(Twice4(), 1) == [1] && FreeStale(Twice4(), [1]) == Twice5()
  {
    hide Queues;
    var s := Twice4();
    assert Next(s, 1) == None;
    assert [1][1..] == [];
    assert GiveAway(s, 1) == Twice5();
  }

  /** Why the condition is needed: a task is deleted, another takes the mutex that was
      freed, and deleting the first task again, though refused, takes it away. Its
      rightful owner can no longer unlock it, and the next task to come can lock it. */
  lemma DeletedTwice()
    ensures Initial(Twice0()) && Run(Twice0(), [Lock(1, WAIT_FOREVER), SuspendTask(1), DelTask(Some(1)), Lock(1, WAIT_FOREVER)], Twice4())
    ensures Inv(Twice4()) && !StaleSafe(Twice4(), 1)
    ensures TaskDel(Twice4(), Some(1)) == (Twice5(), InvTaskState) && !Inv(Twice5())
    ensures Twice5().active == 2 && 1 in Twice5().tasks[2].mutexes && MutexUnlock(Twice5(), 1) == (Twice5(), NotReleasedByOwner)
  {
    TwiceInitial();
    TwiceRun();
    TwiceAgain();
    TwiceTorn();
    hide Initial, Run, Inv, TaskDel, MutexUnlock, StaleSafe, Queues;
    DeleteAgain(Twice4(), Some(1));
  }

  lemma TwiceAgain()
    ensures TaskDel(Twice4(), Some(1)) == (Twice5(), InvTaskState) && !StaleSafe(Twice4(), 1)
  {
    TwiceStale();
    hide Queues, StaleList, FreeStale;
    assert 1 in StaleList(Twice4(), 1) && !Loose(Twice4().O(1));
  }

  lemma TwiceTorn()
    ensures MutexUnlock(Twice5(), 1) == (Twice5(), NotReleasedByOwner)
  {
    hide Queues;
  }

  lemma TwiceRun()
    ensures Run(Twice0(), [Lock(1, WAIT_FOREVER), SuspendTask(1), DelTask(Some(1)), Lock(1, WAIT_FOREVER)], Twice4())
    ensures Inv(Twice4())
  {
    TwiceInitial();
    TwiceLocks(); TwiceSuspended(); TwiceDeleted();
    hide Exec, Enabled, Initial, Inv, Queues, Dead;
    assert Run(Twice4(), [], Twice4());
    RunCons(Twice3(), Lock(1, WAIT_FOREVER), [], Twice4());
    RunCons(Twice2(), DelTask(Some(1)), [Lock(1, WAIT_FOREVER)], Twice4());
    hide Run;
    RunCons(Twice1(), SuspendTask(1), [DelTask(Some(1)), Lock(1, WAIT_FOREVER)], Twice4());
    RunCons(Twice0(), Lock(1, WAIT_FOREVER), [SuspendTask(1), DelTask(Some(1)), Lock(1, WAIT_FOREVER)], Twice4());
    InitialInv(Twice0());
    RunInv(Twice0(), [Lock(1, WAIT_FOREVER), SuspendTask(1), DelTask(Some(1)), Lock(1, WAIT_FOREVER)], Twice4());
  }
}
