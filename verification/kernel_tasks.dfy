/** Unlocking and deleting mutexes, changing, suspending, resuming, aborting and deleting tasks. */
module KernelTasks {
  import opened Options
  import opened Lists
  import opened KernelState
  import opened KernelSteps
  import opened KernelInvariants
  import opened KernelInheritance
  import opened KernelWaits
  import opened KernelMutexes
  import opened KernelHandOver
  import opened KernelBlock
  import opened KernelCalls

  // ---- krhino_mutex_unlock -------------------------------------------------------

  /** A ready task passes its priority on to nobody. */
  lemma RelookIsSet(s: State, t: Tid)
    requires WaitsOk(s) && t in s.tasks && s.tasks[t].state == Rdy
    ensures
      var s1 := Relook(s, t);
      && s1 == (if Look(s, t) != s.tasks[t].prio then SetPrio(s, t, Look(s, t)) else s)
      && s1.objs == s.objs && s1.tasks == s.tasks[t := s.tasks[t].(prio := Look(s, t))]
      && Steady(s, s1)
  {
    hide Look, ReadyAdd, ReadyRm, SetPrio, WaitsOk;
    SetPrioFrame(s, t, Look(s, t));
    SetPrioObjs(s, t, Look(s, t));
  }

  lemma RelookBase(s: State, t: Tid, rel: Option<Oid>)
    requires Base(s, rel) && t in s.tasks && s.tasks[t].state == Rdy && t != IDLE
    ensures Base(Relook(s, t), rel)
  {
    assert TaskOk(t, s.tasks[t]) && WaitsOk(s);
    hide Base, Look, SetPrio, WaitsOk, Relook, Steady;
    LookBound(s, t);
    RelookIsSet(s, t);
    if Look(s, t) != s.tasks[t].prio { SetPrioBase(s, t, Look(s, t), rel); }
  }

  lemma RelookReadyPi(s: State, t: Tid)
    requires WaitsOk(s) && PiBut(s, t, None) && t in s.tasks && s.tasks[t].state == Rdy && s.tasks[t].bPrio <= PRI_MAX
    ensures PiOk(Relook(s, t), None)
  {
    var s1 := Relook(s, t);
    RelookIsSet(s, t);
    LookIsMin(s, t);
    hide Relook, Look, SetPrio, IsMin, Steady;
    ReadyFirst(s, s1, t);
    hide WaitsOk, FirstPrio;
    forall u | u in s1.tasks && s1.tasks[u].Live() ensures PiAt(s1, u) {
      assert u != t ==> PiAt(s, u);
      IsMinFrame(s, s1, s.tasks[u].mutexes, s.tasks[u].bPrio, if u == t then Look(s, t) else s.tasks[u].prio);
    }
  }

  lemma RelookReady(s: State, m: Oid, t: Tid)
    requires Released(s, m) && PiBut(s, t, None) && t in s.tasks && s.tasks[t].state == Rdy && t != IDLE
    ensures Released(Relook(s, t), m) && PiOk(Relook(s, t), None)
    ensures Relook(s, t).objs == s.objs && Steady(s, Relook(s, t))
    ensures Relook(s, t).tasks == s.tasks[t := s.tasks[t].(prio := Look(s, t))]
  {
    assert TaskOk(t, s.tasks[t]) && WaitsOk(s);
    hide Base, Look, SetPrio, Relook, PiBut, PiOk, WaitsOk, Steady;
    RelookBase(s, t, Some(m));
    RelookReadyPi(s, t);
    RelookIsSet(s, t);
  }

  /** First waiters do not depend on the priority of a ready task. */
  lemma ReadyFirst(s: State, s1: State, t: Tid)
    requires WaitsOk(s) && s1.objs == s.objs && t in s.tasks && !s.tasks[t].Waiting()
    requires forall u :: u != t ==> s1.T(u) == s.T(u)
    ensures forall m :: FirstPrio(s1, m) == FirstPrio(s, m)
  {
    forall m ensures FirstPrio(s1, m) == FirstPrio(s, m) {
      var q := s.O(m).waiters;
      assert q == [] || q[0] in q;
    }
  }

  /** The last unlock of m by its owner t, up to the hand-over. */
  lemma UnlockRelease(s: State, m: Oid, t: Tid)
    requires Base(s, None) && PiOk(s, None) && t in s.tasks && s.tasks[t].state == Rdy
    requires m in s.tasks[t].mutexes
    ensures
      var s1 := Relook(Drop(s.PutO(m, s.O(m).(nested := 0)), t, m), t);
      && Released(s1, m) && PiOk(s1, None) && Steady(s, s1) && s1.O(m).waiters == s.O(m).waiters && s1.O(m).owner == Some(t)
      && s1.T(t).state == Rdy && t in s1.tasks && forall u :: u != t ==> s1.T(u) == s.T(u)
  {
    hide Base, PiOk, PiBut, OwnsOk, Relook, Remove, Steady;
    var s0 := Drop(s, t, m);
    HeldFacts(s, t, m);
    DropBase(s, t, m);
    DropOwns(s, t, m);
    DropPi(s, t, m);
    var s1 := s0.PutO(m, s0.objs[m].(nested := 0));
    NestedBase(s0, m, 0, Some(m));
    NestedPi(s0, m, 0, t);
    assert s1 == Drop(s.PutO(m, s.O(m).(nested := 0)), t, m);
    RelookReady(s1, m, t);
    NestedSteady(s, s1, t);
    SteadyTrans(s, s1, Relook(s1, t));
  }

  lemma NestedPi(s: State, m: Oid, n: nat, t: Tid)
    requires PiBut(s, t, None) && m in s.objs
    ensures PiBut(s.PutO(m, s.objs[m].(nested := n)), t, None)
  {
    var s1 := s.PutO(m, s.objs[m].(nested := n));
    forall u | u in s1.tasks && s1.tasks[u].Live() && u != t ensures PiAt(s1, u) {
      assert PiAt(s, u);
      IsMinFrame(s, s1, s.tasks[u].mutexes, s.tasks[u].bPrio, s.tasks[u].prio);
    }
  }

  lemma NestedSteady(s: State, s1: State, t: Tid)
    requires t in s.tasks && t in s1.tasks && s1.tasks == s.tasks[t := s.tasks[t].(mutexes := s1.tasks[t].mutexes)]
    requires s1.objs.Keys == s.objs.Keys && forall o :: o in s.objs ==> s1.objs[o] == s.objs[o].(nested := s1.objs[o].nested, next := s1.objs[o].next)
    requires s1.active == s.active && s1.schedLock == s.schedLock && s1.nesting == s.nesting && s1.now == s.now
    ensures Steady(s, s1)
  {
  }

  /** Giving up a mutex nobody waits for leaves the priority as it is. */
  lemma UnlockQuiet(s: State, m: Oid, t: Tid)
    requires PiAt(s, t) && s.O(m).waiters == [] && s.T(t).bPrio < PRI_MAX && t in s.tasks && m in s.objs
    ensures
      var s0 := Drop(s.PutO(m, s.O(m).(nested := 0)), t, m);
      Relook(s0, t) == s0
  {
    hide Remove;
    var s0 := Drop(s.PutO(m, s.O(m).(nested := 0)), t, m);
    LookIsMin(s0, t);
    assert forall m' :: FirstPrio(s0, m') == FirstPrio(s, m');
    var v := s.T(t).prio;
    assert IsMin(s0, s0.T(t).mutexes, s0.T(t).bPrio, v) by {
      if v != s.T(t).bPrio {
        var m' :| m' in s.T(t).mutexes && v == FirstPrio(s, m');
        assert m' != m;
        assert m' in s0.T(t).mutexes;
      }
    }
    IsMinUnique(s0, s0.T(t).mutexes, s0.T(t).bPrio, v, Look(s0, t));
  }

  lemma MutexUnlockInv(s: State, m: Oid)
    requires Inv(s)
    ensures Inv(MutexUnlock(s, m).0)
  {
    hide Base, PiOk, NoneWaits, CoreSched, Safe, HandOver, Relook, Remove, Steady, Released, IsMin;
    var b := s.O(m);
    if s.nesting == 0 && b.kind == Mutex && b.owner == Some(s.active) {
      RunnerFacts(s);
      MutexFacts(s, m);
      hide OwnsOk, WaitsOk;
      var n := (b.nested - 1) % (NESTED_MAX + 1);
      var t := s.active;
      if n > 0 {
        NestedInv(s, m, n);
      } else {
        UnlockRelease(s, m, t);
        var s1 := Relook(Drop(s.PutO(m, b.(nested := 0)), t, m), t);
        var s2 := HandOver(s1, m, 1);
        SteadyKeys(s, s1);
        ReleasedKeys(s1, m);
        HandOverOk(s1, m, 1, None);
        SteadyTrans(s, s1, s2);
        SteadyNoneWaits(s, s2);
        if b.waiters == [] {
          PiHere(s, t);
          UnlockQuiet(s, m, t);
          UnlockActive(s, m, t);
          SafeInv(s2);
        } else {
          SteadyRunner(s, s2);
          SafeInv(s2);
          SchedInv(s2);
        }
      }
    }
  }

  lemma SafeInv(s: State)
    requires Base(s, None) && PiOk(s, None) && NoneWaits(s)
    ensures Safe(s) && (ActiveOk(s) ==> Inv(s))
  {
  }

  lemma SteadyKeys(s: State, s1: State)
    requires Steady(s, s1)
    ensures s1.tasks.Keys == s.tasks.Keys && s1.objs.Keys == s.objs.Keys
    ensures s1.active == s.active && s1.schedLock == s.schedLock && s1.nesting == s.nesting
  {
  }

  lemma ReleasedKeys(s: State, m: Oid)
    requires Released(s, m)
    ensures m in s.objs
  {
  }

  lemma PiHere(s: State, t: Tid)
    requires Inv(s) && t in s.tasks && s.tasks[t].Live()
    ensures PiAt(s, t) && s.tasks[t].bPrio < PRI_MAX
  {
    assert TaskOk(t, s.tasks[t]);
  }

  lemma UnlockActive(s: State, m: Oid, t: Tid)
    requires ActiveOk(s) && t == s.active && s.O(m).waiters == [] && m in s.objs
    ensures ActiveOk(HandOver(Drop(s.PutO(m, s.O(m).(nested := 0)), t, m), m, 1))
  {
    hide Remove;
  }

  // ---- krhino_mutex_del, deletion of other objects --------------------------------

  lemma RetiredLinks(s: State, m: Oid)
    requires LinksOk(s) && m in s.objs && Loose(s.objs[m])
    ensures LinksOk(s.PutO(m, s.objs[m].(kind := NoKind)))
  {
    hide LinksOk;
    var s1 := s.PutO(m, s.objs[m].(kind := NoKind));
    assert forall x :: MutexPtr(s, x) ==> MutexPtr(s1, x);
    LinksFrame(s, s1);
  }

  lemma DelOwns(s: State, m: Oid)
    requires OwnsOk(s, None) && m in s.objs && (s.objs[m].kind == Mutex ==> s.objs[m].owner.None?)
    ensures OwnsOk(s.PutO(m, s.objs[m].(kind := NoKind)), None)
  {
    var s1 := s.PutO(m, s.objs[m].(kind := NoKind));
    hide LinksOk;
    assert LinksOk(s1) by { RetiredLinks(s, m); }
    forall m' | m' in s1.objs && s1.objs[m'].kind == Mutex ensures MutexOk(s1, m', false) {
      assert MutexOk(s, m', false);
    }
  }

  /** m stops being a mutex and leaves its owner's list. */
  lemma DelDropOwns(s: State, m: Oid, o: Tid)
    requires OwnsOk(s, None) && m in s.objs && s.objs[m].kind == Mutex && s.objs[m].owner == Some(o) && o in s.tasks
    ensures OwnsOk(Drop(s.PutO(m, s.objs[m].(kind := NoKind)), o, m), None)
  {
    hide LinksOk, HoldsOk, MutexesOk, Drop;
    MutexHere(s, m, None);
    var r := s.PutO(m, s.objs[m].(kind := NoKind));
    SplicedLinks(s, r, o, m);
    DropHolds(s, r, o, m);
    DropMutexes(s, r, o, m);
  }

  /** Only kinds and the list of held mutexes of o differ from s. */
  lemma DelBase(s: State, s1: State, o: Tid)
    requires Base(s, None) && o in s.tasks && o in s1.tasks && o != IDLE
    requires s1.tasks == s.tasks[o := s.tasks[o].(mutexes := s1.tasks[o].mutexes)]
    requires s1 == s.(tasks := s1.tasks, objs := s1.objs) && s1.objs.Keys == s.objs.Keys
    requires forall o :: o in s.objs ==> s1.objs[o].waiters == s.objs[o].waiters && s1.objs[o].policy == s.objs[o].policy
    requires OwnsOk(s1, None)
    ensures Base(s1, None)
  {
    hide WaitsOk, SortedOk, ReadyOk, TicksOk, TasksOk, OwnsOk;
    TakeLists(s, s1);
    ReadySame(s, s1);
    TakeTasks(s, s1, o);
  }

  /** The part of `krhino_mutex_del` before the waiters are woken. */
  function Retired(s: State, m: Oid): State {
    var s1 := s.PutO(m, s.O(m).(kind := NoKind));
    match s.O(m).owner
    case None => s1
    case Some(o) => Relook(Drop(s1, o, m), o)
  }

  lemma RetiredFree(s: State, m: Oid)
    requires Base(s, None) && PiOk(s, None) && m in s.objs && (s.objs[m].kind == Mutex ==> s.objs[m].owner.None?)
    ensures
      var s1 := s.PutO(m, s.O(m).(kind := NoKind));
      Base(s1, None) && PiOk(s1, None) && RetiredFrame(s, s1, m)
  {
    hide Base, PiOk, OwnsOk, RetiredFrame;
    var s1 := s.PutO(m, s.O(m).(kind := NoKind));
    OwnsThere(s);
    DelOwns(s, m);
    DelBasePlain(s, s1);
    PiSame(s, s1, None);
    FreeFrame(s, m);
  }

  lemma FreeFrame(s: State, m: Oid)
    requires m in s.objs
    ensures RetiredFrame(s, s.PutO(m, s.O(m).(kind := NoKind)), m)
  {
  }

  lemma OwnsThere(s: State)
    requires Base(s, None)
    ensures OwnsOk(s, None)
  {
  }

  lemma RetiredOwned(s: State, m: Oid, o: Tid)
    requires Base(s, None) && PiOk(s, None) && m in s.objs && s.objs[m].kind == Mutex && s.objs[m].owner == Some(o)
    ensures
      var s2 := Relook(Drop(s.PutO(m, s.O(m).(kind := NoKind)), o, m), o);
      Base(s2, None) && PiOk(s2, None) && RetiredFrame(s, s2, m)
  {
    hide Base, PiOk, PiBut, Relook, Remove, WaitsOk, OwnsOk, PrioOnly;
    MutexFacts(s, m);
    var s1 := Drop(s.PutO(m, s.O(m).(kind := NoKind)), o, m);
    DelDropOwns(s, m, o);
    DelBase(s, s1, o);
    DelPi(s, m, o);
    assert RetiredFrame(s, s1, m);
    hide RetiredFrame;
    RelookPi(s1, o);
    RetiredOnly(s, s1, Relook(s1, o), m);
  }

  lemma RetiredOk(s: State, m: Oid)
    requires Base(s, None) && PiOk(s, None) && m in s.objs && s.objs[m].kind == Mutex
    ensures
      var s2 := Retired(s, m);
      Base(s2, None) && PiOk(s2, None) && RetiredFrame(s, s2, m)
  {
    hide Base, PiOk, Relook, Drop, RetiredFrame;
    match s.objs[m].owner {
      case None => RetiredFree(s, m);
      case Some(o) => RetiredOwned(s, m, o);
    }
  }

  lemma DelBasePlain(s: State, s1: State)
    requires Base(s, None) && s1 == s.(objs := s1.objs) && s1.objs.Keys == s.objs.Keys
    requires forall o :: o in s.objs ==> s1.objs[o].waiters == s.objs[o].waiters && s1.objs[o].policy == s.objs[o].policy
    requires OwnsOk(s1, None)
    ensures Base(s1, None)
  {
    hide WaitsOk, SortedOk, ReadyOk, OwnsOk;
    TakeLists(s, s1);
    ReadySame(s, s1);
  }

  lemma DelPi(s: State, m: Oid, o: Tid)
    requires PiOk(s, None) && m in s.objs && o in s.tasks
    ensures PiBut(Drop(s.PutO(m, s.objs[m].(kind := NoKind)), o, m), o, None)
  {
    hide Remove;
    var s1 := Drop(s.PutO(m, s.objs[m].(kind := NoKind)), o, m);
    forall u | u in s1.tasks && s1.tasks[u].Live() && u != o ensures PiAt(s1, u) {
      assert PiAt(s, u);
      IsMinFrame(s, s1, s.tasks[u].mutexes, s.tasks[u].bPrio, s.tasks[u].prio);
    }
  }

  ghost predicate RetiredFrame(s: State, s1: State, m: Oid) {
    && s1.tasks.Keys == s.tasks.Keys && s1.objs.Keys == s.objs.Keys && m in s1.objs && s1.objs[m].kind == NoKind
    && s1.active == s.active && s1.schedLock == s.schedLock && s1.nesting == s.nesting
    && (forall u :: u in s.tasks ==> s1.tasks[u].state == s.tasks[u].state)
    && (forall o :: o in s.objs && o != m ==> s1.objs[o].kind == s.objs[o].kind)
    && Shrinks(s, s1)
  }

  lemma RetiredThere(s: State, s1: State, m: Oid)
    requires RetiredFrame(s, s1, m)
    ensures m in s1.objs && s1.objs[m].kind == NoKind
  {
  }

  lemma RetiredOnly(s: State, s1: State, s2: State, m: Oid)
    requires RetiredFrame(s, s1, m) && PrioOnly(s1, s2)
    ensures RetiredFrame(s, s2, m)
  {
  }

  /** Waking everybody off an object that has lost its type. */
  lemma WakeOff(s: State, s2: State, m: Oid)
    requires Inv(s) && s.nesting == 0 && Base(s2, None) && PiOk(s2, None) && RetiredFrame(s, s2, m)
    ensures Inv(CoreSched(WakeAll(s2, s2.O(m).waiters, BlkDel)))
  {
    var s3 := WakeAll(s2, s2.O(m).waiters, BlkDel);
    hide Base, PiOk, WakeAll, CoreSched;
    WakeAllPi(s2, m, s2.O(m).waiters);
    forall o | o in s3.objs && s3.objs[o].kind == NoKind ensures s3.objs[o].waiters == [] {
      if o != m {
        assert s.objs[o].kind == NoKind;
        SubEmpty(s3.objs[o].waiters, s2.objs[o].waiters);
        SubEmpty(s2.objs[o].waiters, s.objs[o].waiters);
      }
    }
    SchedInv(s3);
  }

  lemma MutexDelInv(s: State, m: Oid)
    requires Inv(s)
    ensures Inv(MutexDel(s, m).0)
  {
    if s.nesting == 0 && s.O(m).kind == Mutex {
      assert MutexDel(s, m).0 == CoreSched(WakeAll(Retired(s, m), Retired(s, m).O(m).waiters, BlkDel));
      hide Base, PiOk, WakeAll, CoreSched, Retired, RetiredFrame, MutexDel;
      RetiredOk(s, m);
      WakeOff(s, Retired(s, m), m);
    }
  }

  lemma ObjDelInv(s: State, o: Oid)
    requires Inv(s)
    ensures Inv(ObjDel(s, o).0)
  {
    if s.nesting == 0 && s.O(o).kind == Other {
      var s1 := s.PutO(o, s.O(o).(kind := NoKind));
      hide Base, PiOk, WakeAll, CoreSched, RetiredFrame, ActiveOk, NoneWaits;
      RetiredFree(s, o);
      WakeOff(s, s1, o);
    }
  }

  // ---- krhino_task_pri_change --------------------------------------------------------

  lemma BasePi(s: State, t: Tid, pri: nat)
    requires PiOk(s, None) && t in s.tasks
    ensures PiBut(s.PutT(t, s.tasks[t].(bPrio := pri)), t, None)
  {
    var s1 := s.PutT(t, s.tasks[t].(bPrio := pri));
    forall u | u in s1.tasks && s1.tasks[u].Live() && u != t ensures PiAt(s1, u) {
      assert PiAt(s, u);
      IsMinFrame(s, s1, s.tasks[u].mutexes, s.tasks[u].bPrio, s.tasks[u].prio);
    }
  }

  lemma TaskPriChangeInv(s: State, t: Tid, pri: nat)
    requires Inv(s)
    ensures Inv(TaskPriChange(s, t, pri).0)
  {
    hide Base, PiOk, PiBut, PriChange, CoreSched, MinFirst, IsMin, PrioOnly, Steady;
    if s.T(t).prio < IDLE_PRI && pri < IDLE_PRI && s.T(t).Live() && s.nesting == 0 {
      var k := s.tasks[t];
      var s1 := s.PutT(t, k.(bPrio := pri));
      var limit := MinFirst(s, k.mutexes, pri);
      IdleFacts(s, t);
      FieldsBase(s, t, k.(bPrio := pri), None);
      BasePi(s, t, pri);
      MinFirstIsMin(s, k.mutexes, pri);
      MinFrame(s, s1, k.mutexes, pri, limit);
      PriChangePi(s1, t, limit, None);
      WaitsThere(s1);
      PriChangeOnly(s1, t, limit);
      PrioOnlySteady(s1, PriChange(s1, t, limit));
      PutSteady(s, t, k.(bPrio := pri));
      SteadyTrans(s, s1, PriChange(s1, t, limit));
      SteadyNoneWaits(s, PriChange(s1, t, limit));
      SteadyRunner(s, PriChange(s1, t, limit));
      SchedInv(PriChange(s1, t, limit));
    }
  }

  lemma WaitsThere(s: State)
    requires Base(s, None)
    ensures WaitsOk(s)
  {
  }

  lemma IdleFacts(s: State, t: Tid)
    requires Inv(s) && t in s.tasks && s.tasks[t].prio < IDLE_PRI
    ensures t != IDLE && TaskOk(t, s.tasks[t])
  {
  }

  lemma MinFrame(s: State, s1: State, ms: seq<Oid>, acc: nat, v: nat)
    requires IsMin(s, ms, acc, v) && s1.objs == s.objs && forall u :: s1.T(u).prio == s.T(u).prio
    ensures IsMin(s1, ms, acc, v) && v <= acc
  {
  }

  lemma PutSteady(s: State, t: Tid, k: Task)
    requires t in s.tasks && (s.tasks[t].state == Rdy ==> k.state == Rdy)
    ensures Steady(s, s.PutT(t, k))
  {
  }
}
