/** Handing a released mutex to its first waiter, deleting a task, and blocking. */
module KernelHandOver {
  import opened Options
  import opened Lists
  import opened KernelState
  import opened KernelSteps
  import opened KernelInvariants
  import opened KernelInheritance
  import opened KernelWaits
  import opened KernelMutexes

  /** No ready task stops being ready, and no object gains a waiter. */
  ghost predicate Steady(s: State, s1: State) {
    && s1.tasks.Keys == s.tasks.Keys && s1.objs.Keys == s.objs.Keys
    && s1.active == s.active && s1.schedLock == s.schedLock && s1.nesting == s.nesting && s1.now == s.now
    && (forall u :: u in s.tasks && s.tasks[u].state == Rdy ==> s1.tasks[u].state == Rdy)
    && (forall o :: o in s.objs ==> s1.objs[o].kind == s.objs[o].kind)
    && Shrinks(s, s1)
  }

  lemma SteadyTrans(s: State, s1: State, s2: State)
    requires Steady(s, s1) && Steady(s1, s2)
    ensures Steady(s, s2)
  {
  }

  lemma CalmSteady(s: State, s1: State, t: Tid)
    requires Calm(s, s1, t) && s.T(t).state != Rdy
    ensures Steady(s, s1)
  {
  }

  lemma SteadyNoneWaits(s: State, s1: State)
    requires Steady(s, s1) && NoneWaits(s)
    ensures NoneWaits(s1)
  {
    forall o | o in s1.objs && s1.objs[o].kind == NoKind ensures s1.objs[o].waiters == [] {
      SubEmpty(s1.objs[o].waiters, s.objs[o].waiters);
    }
  }

  /** Mutex m has just been dropped from its owner's list. */
  ghost predicate Released(s: State, m: Oid) {
    && Base(s, Some(m)) && m in s.objs && s.objs[m].kind == Mutex && s.objs[m].owner.Some?
    && forall u :: u in s.tasks && s.tasks[u].Live() ==> m !in s.tasks[u].mutexes
  }

  lemma FreeLinks(s: State, m: Oid)
    requires LinksOk(s) && PointsToHeld(s, m) && m in s.objs && s.objs[m].owner.Some?
    ensures LinksOk(s.PutO(m, s.objs[m].(owner := None)))
  {
    hide LinksOk;
    var s1 := s.PutO(m, s.objs[m].(owner := None));
    assert forall x :: MutexPtr(s, x) ==> MutexPtr(s1, x);
    LinksFree(s, s1, m);
  }

  lemma FreeOwnerOwns(s: State, m: Oid)
    requires OwnsOk(s, Some(m)) && m in s.objs && s.objs[m].kind == Mutex && s.objs[m].waiters == [] && s.objs[m].owner.Some?
    requires forall u :: u in s.tasks && s.tasks[u].Live() ==> m !in s.tasks[u].mutexes
    ensures OwnsOk(s.PutO(m, s.objs[m].(owner := None)), None)
  {
    var s1 := s.PutO(m, s.objs[m].(owner := None));
    FreeLinks(s, m);
    hide LinksOk, PointsToHeld, MutexesOk, NoDup;
    forall m' | m' in s1.objs && s1.objs[m'].kind == Mutex ensures MutexOk(s1, m', false) {
      MutexHere(s, m', Some(m));
    }
    MutexesAre(s1, None);
  }

  lemma FreeOwner(s: State, m: Oid)
    requires Released(s, m) && s.objs[m].waiters == []
    ensures Base(s.PutO(m, s.objs[m].(owner := None)), None) && Steady(s, s.PutO(m, s.objs[m].(owner := None)))
  {
    hide OwnsOk, WaitsOk, SortedOk, ReadyOk;
    FreeOwnerOwns(s, m);
    ReadySame(s, s.PutO(m, s.objs[m].(owner := None)));
    TakeLists(s, s.PutO(m, s.objs[m].(owner := None)));
  }

  /** The first waiter w of m wakes up and owns m. */
  lemma PassOn(s: State, m: Oid, nested: nat, x: Option<Tid>)
    requires Released(s, m) && PiOk(s, x) && s.objs[m].waiters != []
    requires x != Some(s.objs[m].waiters[0]) && 1 <= nested <= NESTED_MAX
    ensures Base(HandOver(s, m, nested), None) && PiOk(HandOver(s, m, nested), x) && Steady(s, HandOver(s, m, nested))
  {
    hide Base, PiOk, Wakeup, Take, Remove, WaitsOk, TicksOk, SortedOk, Steady, Calm, FirstPrio;
    var w := s.objs[m].waiters[0];
    var s1 := Wakeup(s, w, BlkFinish);
    WaiterFacts(s, m, Some(m));
    PassOnFacts(s, m, w);
    WakeupPi(s, w, BlkFinish, Some(m), x);
    CalmSteady(s, s1, w);
    TakeBase(s1, m, w, nested);
    TakePi(s1, m, w, nested, x);
    TakeSteady(s1, m, w, nested);
    SteadyTrans(s, s1, Take(s1, m, w, nested));
  }

  lemma TakeSteady(s: State, m: Oid, t: Tid, nested: nat)
    requires t in s.tasks && m in s.objs
    ensures Steady(s, Take(s, m, t, nested))
  {
  }

  /** The waiters of m, and the first of them w. */
  lemma WaiterFacts(s: State, m: Oid, rel: Option<Oid>)
    requires Base(s, rel) && m in s.objs && s.objs[m].kind == Mutex && s.objs[m].waiters != []
    ensures
      var w := s.objs[m].waiters[0];
      && w in s.tasks && s.tasks[w].Waiting() && s.tasks[w].blkObj == Some(m) && w != IDLE
      && WaitsOk(s) && TicksOk(s) && s.tasks[w].prio <= PRI_MAX
      && (forall y :: y in s.objs[m].waiters ==> s.tasks[w].prio <= s.T(y).prio)
      && s.objs[m].owner.Some? && s.objs[m].owner.value !in s.objs[m].waiters
  {
    hide ReadyOk;
    var q := s.objs[m].waiters;
    var w := q[0];
    assert w in q;
    assert TaskOk(w, s.tasks[w]);
    assert MutexOk(s, m, Some(m) == rel) && Sorted(s, q);
    forall y | y in q ensures s.tasks[w].prio <= s.T(y).prio {
      var j :| 0 <= j < |q| && q[j] == y;
      assert s.T(q[0]).prio <= s.T(q[j]).prio;
    }
  }

  ghost predicate PassedOn(s: State, s1: State, m: Oid, w: Tid) {
    && w in s.tasks && s.tasks[w].Waiting() && s.tasks[w].blkObj == Some(m) && w != IDLE
    && s1.tasks.Keys == s.tasks.Keys && s1.T(w).Live()
    && m in s1.objs && s1.objs[m].kind == Mutex && w !in s1.objs[m].waiters
    && (forall u :: u in s.tasks ==> s1.T(u).mutexes == s.T(u).mutexes && (s1.T(u).Live() <==> s.T(u).Live()))
    && s1.T(w).prio <= FirstPrio(s1, m)
  }

  lemma PassOnFacts(s: State, m: Oid, w: Tid)
    requires WaitsOk(s) && TicksOk(s) && m in s.objs && s.objs[m].kind == Mutex && w in s.objs[m].waiters
    requires w in s.tasks && s.tasks[w].Waiting() && s.tasks[w].blkObj == Some(m) && w != IDLE
    requires forall y :: y in s.objs[m].waiters ==> s.tasks[w].prio <= s.T(y).prio
    requires s.tasks[w].prio <= PRI_MAX
    ensures PassedOn(s, Wakeup(s, w, BlkFinish), m, w)
  {
    hide Wakeup, Remove, WaitsOk, TicksOk;
    WakeupShape(s, w, BlkFinish);
    var r := Remove(s.objs[m].waiters, w);
    assert r == [] || r[0] in r;
  }

  /** The released mutex m changes hands, or is free if nobody waits. */
  lemma HandOverOk(s: State, m: Oid, nested: nat, x: Option<Tid>)
    requires Released(s, m) && PiOk(s, x)
    requires x == None || x == s.objs[m].owner
    requires 1 <= nested <= NESTED_MAX
    ensures Base(HandOver(s, m, nested), None) && PiOk(HandOver(s, m, nested), x) && Steady(s, HandOver(s, m, nested))
  {
    hide Base, PiOk, Steady;
    if s.objs[m].waiters == [] {
      FreeOwner(s, m);
      PiSame(s, s.PutO(m, s.objs[m].(owner := None)), x);
      assert HandOver(s, m, nested) == s.PutO(m, s.objs[m].(owner := None));
    } else {
      hide HandOver;
      WaiterFacts(s, m, Some(m));
      PassOn(s, m, nested, x);
    }
  }

  // ---- deleting a task -----------------------------------------------------------

  lemma HeldFacts(s: State, t: Tid, m: Oid)
    requires Base(s, None) && t in s.tasks && s.tasks[t].Live() && m in s.tasks[t].mutexes
    ensures m in s.objs && s.objs[m].kind == Mutex && s.objs[m].owner == Some(t) && OwnsOk(s, None) && t != IDLE
    ensures 1 <= s.objs[m].nested <= NESTED_MAX && t !in s.objs[m].waiters
  {
    hide ReadyOk, TicksOk, WaitsOk, SortedOk;
    assert MutexOk(s, m, false);
    assert TaskOk(t, s.tasks[t]);
  }

  lemma DropSteady(s: State, t: Tid, m: Oid)
    requires t in s.tasks && m in s.objs
    ensures Steady(s, Drop(s, t, m))
  {
    hide Remove, Successor;
  }

  lemma FreeStep(s: State, t: Tid, m: Oid)
    requires Base(s, None) && PiOk(s, Some(t)) && t in s.tasks && s.tasks[t].Live()
    requires m in s.tasks[t].mutexes
    ensures
      var s1 := HandOver(Drop(s, t, m), m, s.O(m).nested);
      Base(s1, None) && PiOk(s1, Some(t)) && Steady(s, s1)
  {
    hide Base, PiOk, HandOver, Remove, OwnsOk, Steady;
    var s1 := Drop(s, t, m);
    HeldFacts(s, t, m);
    DropBase(s, t, m);
    DropOwns(s, t, m);
    DropPiBut(s, t, m);
    DropSteady(s, t, m);
    HandOverOk(s1, m, s.O(m).nested, Some(t));
    SteadyTrans(s, s1, HandOver(s1, m, s.O(m).nested));
  }

  lemma DropPiBut(s: State, t: Tid, m: Oid)
    requires PiOk(s, Some(t)) && t in s.tasks
    ensures PiOk(Drop(s, t, m), Some(t))
  {
    hide Remove, Successor, IsMin;
    var s1 := Drop(s, t, m);
    forall u | u in s1.tasks && s1.tasks[u].Live() && Some(u) != Some(t) ensures PiAt(s1, u) {
      assert PiAt(s, u);
      IsMinFrame(s, s1, s.tasks[u].mutexes, s.tasks[u].bPrio, s.tasks[u].prio);
    }
  }

  /** Handing m over does not touch the record of a task that does not wait for m. */
  lemma HandOverFrame(s: State, m: Oid, nested: nat, t: Tid)
    requires t in s.tasks && t !in s.O(m).waiters
    ensures HandOver(s, m, nested).T(t) == s.T(t)
  {
    hide Remove;
    var q := s.O(m).waiters;
    assert q == [] || q[0] in q;
  }

  lemma {:induction false} FreeAll(s: State, t: Tid, ms: seq<Oid>)
    requires Base(s, None) && PiOk(s, Some(t)) && t in s.tasks && s.tasks[t].Live() && s.tasks[t].mutexes == ms
    ensures
      var s1 := FreeMutexes(s, t, ms);
      && Base(s1, None) && PiOk(s1, Some(t)) && Steady(s, s1)
      && s1.T(t) == s.T(t).(mutexes := [])
    decreases |ms|
  {
    hide Base, PiOk, HandOver, Remove, Steady;
    if ms == [] {
      assert Steady(s, s) by { SteadyRefl(s); }
    } else {
      var s0 := Drop(s, t, ms[0]);
      var s1 := HandOver(s0, ms[0], s.O(ms[0]).nested);
      HeldFacts(s, t, ms[0]);
      FreeStep(s, t, ms[0]);
      HandOverFrame(s0, ms[0], s.O(ms[0]).nested, t);
      HeldNoDup(s, t);
      RemoveHead(ms);
      SteadyTasks(s, s1);
      FreeAll(s1, t, ms[1..]);
      SteadyTrans(s, s1, FreeMutexes(s1, t, ms[1..]));
    }
  }

  lemma SteadyRefl(s: State)
    ensures Steady(s, s)
  {
  }

  lemma SteadyTasks(s: State, s1: State)
    requires Steady(s, s1)
    ensures s1.tasks.Keys == s.tasks.Keys && s1.objs.Keys == s.objs.Keys
  {
  }

  lemma HeldNoDup(s: State, t: Tid)
    requires Base(s, None) && t in s.tasks && s.tasks[t].Live()
    ensures NoDup(s.tasks[t].mutexes)
  {
    hide WaitsOk, SortedOk, ReadyOk, TicksOk, TasksOk;
  }

  // ---- K_DELETED -------------------------------------------------------------------

  lemma DepartShape(s: State, t: Tid)
    requires WaitsOk(s) && TicksOk(s) && t in s.tasks && s.tasks[t].Live()
    ensures
      var s1, k := Depart(s, t), s.tasks[t];
      && s1.tasks == s.tasks[t := k.(ticking := false, state := Deleted)]
      && s1.objs == (if k.Waiting() then
           s.objs[k.blkObj.value := s.objs[k.blkObj.value].(waiters := Remove(s.objs[k.blkObj.value].waiters, t))] else s.objs)
      && s1.ticks == Remove(s.ticks, t)
      && s1.now == s.now && s1.active == s.active && s1.schedLock == s.schedLock && s1.nesting == s.nesting
  {
    hide Remove, ReadyRm, WaitsOk;
    if s.tasks[t].Waiting() { WaitTarget(s, t); }
    ReadyRmFrame(s, t);
  }

  lemma DepartReady(s: State, t: Tid)
    requires WaitsOk(s) && TicksOk(s) && ReadyOk(s, None) && TasksOk(s) && t in s.tasks && s.tasks[t].Live() && t != IDLE
    ensures ReadyOk(Depart(s, t), None)
  {
    hide Remove, WaitsOk, TicksOk, ReadyOk, ReadyRm;
    DepartShape(s, t);
    if s.tasks[t].state == Rdy {
      ReadyRmOk(s, t);
      ReadyFrame(ReadyRm(s, t), Depart(s, t), t);
    } else {
      ReadyOut(s, t);
      ReadyFrame(s, Depart(s, t), t);
    }
  }

  /** A deleted task that held no mutex leaves no trace in the ownership relation. */
  lemma DepartOwns(s: State, s1: State, t: Tid)
    requires OwnsOk(s, None) && t in s.tasks && s.tasks[t].mutexes == []
    requires t in s1.tasks && s1.tasks == s.tasks[t := s1.tasks[t]] && !s1.tasks[t].Live() && s1.tasks[t].mutexes == []
    requires s1.objs.Keys == s.objs.Keys
    requires forall o :: o in s.objs ==> s1.objs[o] == s.objs[o].(waiters := s1.objs[o].waiters)
    requires forall o, y :: o in s.objs && y in s1.objs[o].waiters ==> y in s.objs[o].waiters
    ensures OwnsOk(s1, None)
  {
    hide LinksOk, NoDup, MutexesOk;
    OwnsLinks(s, s1, None);
    forall m | m in s1.objs && s1.objs[m].kind == Mutex ensures MutexOk(s1, m, false) {
      MutexHere(s, m, None);
      SubEmpty(s1.objs[m].waiters, s.objs[m].waiters);
    }
    MutexesAre(s1, None);
  }

  /** t was on no wait list. */
  lemma DepartIdle(s: State, s1: State, t: Tid)
    requires WaitsOk(s) && SortedOk(s) && t in s.tasks && !s.tasks[t].Waiting()
    requires s1.tasks == s.tasks[t := s.tasks[t].(ticking := false, state := Deleted)] && s1.objs == s.objs
    ensures WaitsOk(s1) && SortedOk(s1)
  {
    assert SortedOk(s1) by {
      hide WaitsOk;
      forall o | o in s1.objs && s1.objs[o].policy == ByPrio ensures Sorted(s1, s1.objs[o].waiters) {
        assert Sorted(s, s.objs[o].waiters);
      }
    }
    hide SortedOk;
  }

  lemma DepartWaits(s: State, t: Tid)
    requires WaitsOk(s) && SortedOk(s) && TicksOk(s) && OwnsOk(s, None) && t in s.tasks && s.tasks[t].Live()
    requires s.tasks[t].mutexes == []
    ensures WaitsOk(Depart(s, t)) && SortedOk(Depart(s, t)) && TicksOk(Depart(s, t)) && OwnsOk(Depart(s, t), None)
  {
    hide SortedOk, TicksOk, OwnsOk, Depart, Remove;
    var s1 := Depart(s, t);
    DepartShape(s, t);
    assert s.tasks[t].Waiting() ==> s.tasks[t].blkObj.value in s.objs;
    hide WaitsOk;
    if s.tasks[t].Waiting() {
      LeaveWaits(s, s1, t, s.tasks[t].blkObj.value);
      LeaveSorted(s, s1, t, s.tasks[t].blkObj.value);
    } else {
      DepartIdle(s, s1, t);
    }
    LeaveTicks(s, s1, t);
    DepartOwns(s, s1, t);
  }

  lemma DepartBase(s: State, t: Tid)
    requires Base(s, None) && t in s.tasks && s.tasks[t].Live() && t != IDLE && s.tasks[t].mutexes == []
    ensures Base(Depart(s, t), None)
  {
    hide WaitsOk, SortedOk, TicksOk, OwnsOk, ReadyOk, Remove, Depart;
    DepartShape(s, t);
    DepartReady(s, t);
    DepartWaits(s, t);
    assert TaskOk(t, s.tasks[t]);
  }

  lemma BuryOk(s: State, t: Tid)
    requires Base(s, None) && PiOk(s, Some(t)) && t in s.tasks && s.tasks[t].Live() && t != IDLE && s.tasks[t].mutexes == []
    ensures Base(Bury(s, t), None) && PiOk(Bury(s, t), None)
    ensures BuryFrame(s, Bury(s, t), t)
  {
    hide Base, PiOk, PiBut, Depart, Reset, Remove, BuryFrame, PrioOnly, WaitsOk, TicksOk, Left;
    var s1 := Depart(s, t);
    DepartBase(s, t);
    BuryTokens(s);
    DepartShape(s, t);
    DepartFrame(s, t);
    if s.tasks[t].Waiting() {
      BuryLeft(s, t);
      LeavePiBut(s, s1, t, Some(t));
      ResetFrom(s, s1, t);
      BuryOnly(s, s1, Reset(s1, t), t);
    } else {
      DepartPi(s, s1, t);
    }
  }

  lemma DepartPi(s: State, s1: State, t: Tid)
    requires PiOk(s, Some(t)) && t in s.tasks && !s.tasks[t].Waiting()
    requires s1.tasks == s.tasks[t := s.tasks[t].(ticking := false, state := Deleted)] && s1.objs == s.objs
    ensures PiOk(s1, None)
  {
    forall u | u in s1.tasks && s1.tasks[u].Live() ensures PiAt(s1, u) {
      assert PiAt(s, u);
      IsMinFrame(s, s1, s.T(u).mutexes, s.T(u).bPrio, s.T(u).prio);
    }
  }

  lemma DepartFrame(s: State, t: Tid)
    requires WaitsOk(s) && TicksOk(s) && t in s.tasks && s.tasks[t].Live()
    ensures BuryFrame(s, Depart(s, t), t)
  {
    hide Remove, Depart, WaitsOk, TicksOk;
    if s.tasks[t].Waiting() { WaitTarget(s, t); }
    DepartShape(s, t);
  }

  ghost predicate BuryFrame(s: State, s1: State, t: Tid) {
    && s1.tasks.Keys == s.tasks.Keys && s1.objs.Keys == s.objs.Keys
    && s1.active == s.active && s1.schedLock == s.schedLock && s1.nesting == s.nesting
    && !s1.T(t).Live() && (forall u :: u in s.tasks && u != t ==> s1.T(u).state == s.T(u).state)
    && (forall o :: o in s.objs ==> s1.objs[o].kind == s.objs[o].kind)
    && Shrinks(s, s1)
  }

  lemma BuryTokens(s: State)
    requires Base(s, None)
    ensures WaitsOk(s) && TicksOk(s) && forall t :: t in s.tasks && s.tasks[t].Waiting() ==> s.tasks[t].blkObj.Some? && s.tasks[t].blkObj.value in s.objs
  {
  }

  lemma BuryLeft(s: State, t: Tid)
    requires WaitsOk(s) && TicksOk(s) && t in s.tasks && s.tasks[t].Waiting()
    ensures Left(s, Depart(s, t), t)
  {
    hide Remove, Depart, WaitsOk, TicksOk;
    WaitTarget(s, t);
    DepartShape(s, t);
  }

  lemma BuryOnly(s: State, s1: State, s2: State, t: Tid)
    requires PrioOnly(s1, s2) && BuryFrame(s, s1, t)
    ensures BuryFrame(s, s2, t)
  {
  }
}
