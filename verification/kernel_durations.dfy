/** How long sleeps and timeouts last. */
module KernelDurations {
  import opened Options
  import opened Lists
  import opened KernelState
  import opened KernelSteps
  import opened KernelInvariants
  import opened KernelWaits
  import opened KernelBlock
  import opened KernelCalls
  import opened KernelRun
  import opened KernelTicks
  import opened KernelCounts
  import opened KernelEffects

  // ---- how a sleep starts -------------------------------------------------------------------

  /** Sleeping for a number of ticks: the caller is on the tick list with just so many left. */
  lemma SleepStarts(s: State, ticks: nat)
    requires Inv(s) && s.nesting == 0 && s.schedLock == 0 && s.active != IDLE && 0 < ticks < TICK_SPAN
    ensures var (s1, r) := TaskSleep(s, ticks); var a := s.active;
      && r == Blocked && OnlyTask(s, s1, a) && s1.T(a).state == Sleep && s1.active != a
      && a in s1.ticks && (s1.T(a).tickMatch - s1.now) % TICK_SPAN == ticks
  {
    hide Inv, CoreSched, ReadyRm, TickInsert, OnlyTask, InsertByTick;
    RunnerFacts(s);
    SleepIs(s, ticks);
    SleepCounts(s, ticks);
    TaskSleepInv(s, ticks) by { SleepAllowed(s, ticks); }
    SleepRecord(s, ticks);
    RunnerReady(TaskSleep(s, ticks).0);
    DueTime(s.now, ticks);
  }

  lemma SleepAllowed(s: State, ticks: nat)
    requires s.active != IDLE
    ensures Enabled(s, SleepFor(ticks))
  {
  }

  lemma SleepCounts(s: State, ticks: nat)
    requires 0 < ticks && s.nesting == 0 && s.schedLock == 0
    ensures TaskSleep(s, ticks).1 == Blocked
  {
    hide CoreSched, ReadyRm, TickInsert;
  }

  lemma SleepRecord(s: State, ticks: nat)
    requires s.active in s.tasks && s.nesting == 0 && s.schedLock == 0 && ticks > 0
    ensures var s1, a := TaskSleep(s, ticks).0, s.active;
      && s1.tasks == s.tasks[a := s.tasks[a].(state := Sleep, tickMatch := (s.now + ticks) % TICK_SPAN, ticking := true)]
      && a in s1.ticks && s1.now == s.now && s1.nesting == 0 && OnlyTask(s, s1, a)
  {
    hide CoreSched, ReadyRm, Drowsy, TaskSleep;
    SleepIs(s, ticks);
    DrowsyShape(s, ticks);
    var d := Drowsy(s, ticks);
    ReadyRmFrame(d, s.active);
    SchedKeeps(ReadyRm(d, s.active));
  }

  // ---- one tick interrupt ----------------------------------------------------------------------

  /** What the end of its time makes of a task: a sleeper is ready with success, a waiter is
      told that its time ran out; a suspended one stays so. */
  ghost predicate TimedOut(k: Task, k1: Task) {
    k1 == match k.state
      case Sleep => k.(state := Rdy, blkState := BlkFinish, ticking := false, prio := k1.prio)
      case SleepSuspended => k.(state := Suspended, blkState := BlkFinish, ticking := false, prio := k1.prio)
      case Pend => k.(state := Rdy, blkState := BlkTimeout, ticking := false, blkObj := None, prio := k1.prio)
      case PendSuspended => k.(state := Suspended, blkState := BlkTimeout, ticking := false, blkObj := None, prio := k1.prio)
      case _ => k.(prio := k1.prio)
  }

  /** After n ticks a task has n less to wait, if it had more; otherwise its time is over. */
  lemma TickPasses(s: State, n: nat, t: Tid)
    requires Inv(s) && TickSorted(s) && s.nesting > 0 && n < HALF_SPAN && t in s.ticks
    ensures var s1, r := TickUpdate(s, n), (s.T(t).tickMatch - s.now) % TICK_SPAN;
      && Inv(s1) && TickSorted(s1) && t in s.tasks && t in s1.tasks
      && (n < r ==> t in s1.ticks && s1.tasks[t] == s.tasks[t].(prio := s1.tasks[t].prio) && (s1.T(t).tickMatch - s1.now) % TICK_SPAN == r - n)
      && (n >= r ==> t !in s1.ticks && TimedOut(s.tasks[t], s1.tasks[t]))
  {
    hide Inv, TickSorted, TickUpdate, Enabled;
    TickUpdateInv(s, n) by { TickAllowed(s, n); }
    TickExact(s, n);
    InTicks(s, t);
    Sooner(s, n, t);
  }

  lemma TickAllowed(s: State, n: nat)
    requires s.nesting > 0 && n < HALF_SPAN
    ensures Enabled(s, Tick(n))
  {
  }

  lemma InTicks(s: State, t: Tid)
    requires Inv(s) && t in s.ticks
    ensures t in s.tasks
  {
    hide WaitsOk, SortedOk, OwnsOk, ReadyOk, TasksOk, PiOk, NoneWaits, ActiveOk;
  }

  lemma Sooner(s: State, n: nat, t: Tid)
    requires TickSorted(s) && n < HALF_SPAN && t in s.ticks && t in s.tasks
    ensures var s1 := s.(now := (s.now + n) % TICK_SPAN);
      n < Remaining(s, t) ==> (s.T(t).tickMatch - s1.now) % TICK_SPAN == Remaining(s, t) - n
  {
    hide Ordered;
    Elapsed(s, n, t);
  }

  // ---- many of them --------------------------------------------------------------------------

  /** Timer interrupts, one after the other, each reporting some ticks. */
  function Ticking(s: State, ns: seq<nat>): State
    decreases |ns|
  {
    if ns == [] then s else Ticking(IntrptExit(TickUpdate(IntrptEnter(s), ns[0])), ns[1..])
  }

  function Sum(ns: seq<nat>): nat { if ns == [] then 0 else ns[0] + Sum(ns[1..]) }

  /** One interrupt, from entry to exit. */
  lemma TickInterrupt(s: State, n: nat, t: Tid)
    requires Inv(s) && TickSorted(s) && n < HALF_SPAN && t in s.ticks
    ensures var s1, r := IntrptExit(TickUpdate(IntrptEnter(s), n)), (s.T(t).tickMatch - s.now) % TICK_SPAN;
      && Inv(s1) && TickSorted(s1) && t in s.tasks && t in s1.tasks
      && (n < r ==> t in s1.ticks && s1.tasks[t] == s.tasks[t].(prio := s1.tasks[t].prio) && (s1.T(t).tickMatch - s1.now) % TICK_SPAN == r - n)
      && (n >= r ==> t !in s1.ticks && TimedOut(s.tasks[t], s1.tasks[t]))
  {
    hide Inv, TickSorted, TickUpdate, TimedOut, TickRel;
    var a := IntrptEnter(s);
    CountersInv(s);
    CountersRel(s);
    TickRelSorted(s, a) by { InvTicks(s); }
    TickPasses(a, n, t);
    var b := TickUpdate(a, n);
    StaysInside(a, n);
    CountersInv(b);
    CountersRel(b);
    TickRelSorted(b, IntrptExit(b)) by { InvTicks(b); }
    ExitKeeps(b);
  }

  lemma ExitKeeps(s: State)
    ensures var s1 := IntrptExit(s); s1.tasks == s.tasks && s1.ticks == s.ticks && s1.now == s.now
  {
    SchedKeeps(s.(nesting := if s.nesting == 0 then 0 else s.nesting - 1));
  }

  /** Ticks do not change how deep the interrupt is. */
  lemma StaysInside(s: State, n: nat)
    ensures TickUpdate(s, n).nesting == s.nesting
  {
    hide Drain;
    DrainInside(s.(now := (s.now + n) % TICK_SPAN), s.ticks);
  }

  lemma DrainInside(s: State, q: seq<Tid>)
    ensures Drain(s, q).nesting == s.nesting
  {
    DrainQuiet(s, q, 0);
  }

  /** A sleeper sleeps on as long as the ticks do not add up to what it has left, and is
      ready with the interrupt in which they do. */
  lemma {:induction false} SleepsOn(s: State, t: Tid, ns: seq<nat>)
    requires Inv(s) && TickSorted(s) && t in s.ticks && t in s.tasks && s.tasks[t].state == Sleep
    requires (forall n :: n in ns ==> n < HALF_SPAN) && Sum(ns) < (s.T(t).tickMatch - s.now) % TICK_SPAN
    ensures var s1 := Ticking(s, ns);
      && Inv(s1) && TickSorted(s1) && t in s1.ticks && t in s1.tasks && s1.tasks[t].state == Sleep
      && (s1.T(t).tickMatch - s1.now) % TICK_SPAN == (s.T(t).tickMatch - s.now) % TICK_SPAN - Sum(ns)
    decreases |ns|
  {
    hide Inv, TickSorted, TickUpdate, IntrptEnter, IntrptExit, TimedOut;
    if ns != [] {
      assert ns[0] in ns && forall n :: n in ns[1..] ==> n in ns;
      TickInterrupt(s, ns[0], t);
      SleepsOn(IntrptExit(TickUpdate(IntrptEnter(s), ns[0])), t, ns[1..]);
    }
  }

  lemma {:induction false} TickingJoin(s: State, ns: seq<nat>, n: nat)
    ensures Ticking(s, ns + [n]) == IntrptExit(TickUpdate(IntrptEnter(Ticking(s, ns)), n))
    decreases |ns|
  {
    hide TickUpdate, IntrptEnter, IntrptExit;
    if ns == [] {
      assert ([] + [n])[1..] == [] && ([] + [n])[0] == n;
    } else {
      TickingJoin(IntrptExit(TickUpdate(IntrptEnter(s), ns[0])), ns[1..], n);
      assert (ns + [n])[0] == ns[0] && (ns + [n])[1..] == ns[1..] + [n];
    }
  }

  /** A sleep of so many ticks ends with the timer interrupt in which the ticks reported
      since then reach that number, and not before. */
  lemma SleepLasts(s: State, ticks: nat, ns: seq<nat>, n: nat)
    requires Inv(s) && TickSorted(s) && s.nesting == 0 && s.schedLock == 0 && s.active != IDLE && 0 < ticks < HALF_SPAN
    requires (forall x :: x in ns ==> x < HALF_SPAN) && n < HALF_SPAN && Sum(ns) < ticks <= Sum(ns) + n
    ensures var s1, a := TaskSleep(s, ticks).0, s.active;
      && Ticking(s1, ns).T(a).state == Sleep
      && Ticking(s1, ns + [n]).T(a).state == Rdy && Ticking(s1, ns + [n]).T(a).blkState == BlkFinish
  {
    hide Inv, TickSorted, TaskSleep, TickUpdate, IntrptEnter, IntrptExit, OnlyTask, Ticking;
    var s1, a := TaskSleep(s, ticks).0, s.active;
    SleepStarts(s, ticks);
    SleepSorted(s, ticks);
    TaskSleepInv(s, ticks) by { SleepAllowed(s, ticks); }
    InTicks(s1, a);
    SleepsOn(s1, a, ns);
    TickInterrupt(Ticking(s1, ns), n, a);
    TickingJoin(s1, ns, n);
  }

  // ---- timeouts --------------------------------------------------------------------------------

  /** Waiting for a mutex with a timeout puts the caller on the tick list with just so many
      ticks left; waiting forever does not. */
  lemma TimeoutStarts(s: State, o: Oid, t: Tid, ticks: nat)
    requires t in s.tasks && t !in s.ticks && ticks < TICK_SPAN
    ensures var s1 := Block(s, o, t, ticks);
      && (t in s1.ticks <==> 0 < ticks < 0xFFFF_FFFF_FFFF_FFFF)
      && (t in s1.ticks ==> t in s1.tasks && (s1.T(t).tickMatch - s1.now) % TICK_SPAN == ticks)
  {
    hide Block, InsertByTick, InsertByPrio, ReadyRm;
    BlockShape(s, o, t, ticks);
    DueTime(s.now, ticks);
  }
}
