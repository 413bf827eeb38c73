/** The invariant of the kernel state and the lemmas that carry it through the
    building blocks of the API routines. */
module KernelInvariants {
  import opened Options
  import opened Lists
  import opened KernelState
  import opened KernelSteps

  // ---- the invariant -------------------------------------------------------

  /** A task is on the wait list of `blk_obj` exactly while it is pending. */
  ghost predicate WaitsOk(s: State) {
    && (forall t :: t in s.tasks && s.tasks[t].Waiting() ==>
          && s.tasks[t].blkObj.Some? && s.tasks[t].blkObj.value in s.objs
          && t in s.objs[s.tasks[t].blkObj.value].waiters)
    && (forall o, t :: o in s.objs && t in s.objs[o].waiters ==>
          t in s.tasks && s.tasks[t].Waiting() && s.tasks[t].blkObj == Some(o))
    && (forall o :: o in s.objs ==> NoDup(s.objs[o].waiters))
  }

  ghost predicate Sorted(s: State, q: seq<Tid>) {
    forall i, j :: 0 <= i < j < |q| ==> s.T(q[i]).prio <= s.T(q[j]).prio
  }

  ghost predicate SortedOk(s: State) {
    forall o :: o in s.objs && s.objs[o].policy == ByPrio ==> Sorted(s, s.objs[o].waiters)
  }

  ghost predicate MutexPtr(s: State, m: Oid) { m in s.objs && s.objs[m].kind != Other }

  /** A link from a loose to a loose mutex goes up in rank. */
  ghost predicate RankUp(objs: map<Oid, Obj>, rank: map<Oid, nat>, m: Oid)
    requires m in objs && rank.Keys == objs.Keys
  {
    Loose(objs[m]) && objs[m].next.Some? && objs[m].next.value in objs && Loose(objs[objs[m].next.value]) ==>
      rank[m] < rank[objs[m].next.value]
  }

  ghost predicate Ranked(objs: map<Oid, Obj>, rank: map<Oid, nat>) {
    rank.Keys == objs.Keys && forall m {:trigger RankUp(objs, rank, m)} :: m in objs ==> RankUp(objs, rank, m)
  }

  ghost predicate NextPtr(s: State, m: Oid) { s.O(m).next.Some? ==> MutexPtr(s, s.O(m).next.value) }

  /** Every pointer to a mutex, stale or not, leads to one, and stale links end. */
  ghost predicate LinksOk(s: State) {
    && (forall m {:trigger NextPtr(s, m)} :: m in s.objs ==> NextPtr(s, m))
    && (forall t, m :: t in s.tasks && m in s.tasks[t].mutexes ==> MutexPtr(s, m))
    && exists rank: map<Oid, nat> :: Ranked(s.objs, rank)
  }

  /** A mutex just taken out of its owner's list points to one still owned. */
  ghost predicate PointsToHeld(s: State, m: Oid) {
    m in s.objs && s.objs[m].owner.Some? && s.objs[m].next.Some? ==>
      s.objs[m].next != Some(m) && s.objs[m].next.value in s.objs && !Loose(s.objs[s.objs[m].next.value])
  }

  /** Each owned mutex is in its owner's list, once, and only there; a mutex
      somebody waits for is owned by another task. rel is a mutex that has just
      been taken out of its owner's list. */
  ghost predicate OwnsOk(s: State, rel: Option<Oid>) {
    LinksOk(s) && (rel.Some? ==> PointsToHeld(s, rel.value)) && HoldsOk(s) && MutexesOk(s, rel)
  }

  ghost predicate HoldsOk(s: State) {
    && (forall t, m :: t in s.tasks && s.tasks[t].Live() && m in s.tasks[t].mutexes ==>
          m in s.objs && s.objs[m].kind == Mutex && s.objs[m].owner == Some(t))
    && (forall t :: t in s.tasks && s.tasks[t].Live() ==> NoDup(s.tasks[t].mutexes))
  }

  ghost predicate MutexesOk(s: State, rel: Option<Oid>) {
    forall m :: m in s.objs && s.objs[m].kind == Mutex ==> MutexOk(s, m, Some(m) == rel)
  }

  ghost predicate MutexOk(s: State, m: Oid, released: bool)
    requires m in s.objs
  {
    var b := s.objs[m];
    && b.policy == ByPrio
    && (b.owner.None? ==> b.waiters == [])
    && (b.owner.Some? ==>
          && b.owner.value in s.tasks && s.tasks[b.owner.value].Live()
          && b.owner.value !in b.waiters
          && (!released ==> m in s.tasks[b.owner.value].mutexes && b.nested >= 1)
          && b.nested <= NESTED_MAX)
  }

  /** List p of the ready queue holds exactly the ready tasks of priority p, x aside. */
  ghost predicate ListOk(s: State, p: nat, x: Option<Tid>)
    requires p < |s.ready|
  {
    && (forall t :: t in s.ready[p] ==> t in s.tasks && s.tasks[t].state == Rdy && s.tasks[t].prio == p && Some(t) != x)
    && (forall t :: t in s.tasks && s.tasks[t].state == Rdy && s.tasks[t].prio == p && Some(t) != x ==> t in s.ready[p])
    && NoDup(s.ready[p])
  }

  /** Bit p says whether list p is non-empty and `highest_pri` is the least set bit. */
  ghost predicate IndexOk(s: State) {
    && |s.ready| == PRI_MAX
    && (forall p :: p in s.bits <==> 0 <= p < PRI_MAX && s.ready[p] != [])
    && s.highest in s.bits && (forall p :: p in s.bits ==> s.highest <= p)
  }

  ghost predicate ReadyOk(s: State, x: Option<Tid>) {
    && IndexOk(s)
    && (forall p :: 0 <= p < PRI_MAX ==> ListOk(s, p, x))
    && (forall t :: t in s.tasks && s.tasks[t].state == Rdy && Some(t) != x ==> s.tasks[t].prio < PRI_MAX)
  }

  /** The tick list holds exactly the ticking tasks; only sleeping or pending
      tasks tick, and a sleeping task always does. */
  ghost predicate TicksOk(s: State) {
    && NoDup(s.ticks)
    && (forall t :: t in s.ticks <==> t in s.tasks && s.tasks[t].ticking)
    && (forall t :: t in s.tasks && s.tasks[t].ticking ==> s.tasks[t].Waiting() || s.tasks[t].Sleeping())
    && (forall t :: t in s.tasks && s.tasks[t].Sleeping() ==> s.tasks[t].ticking)
  }

  ghost predicate TaskOk(t: Tid, k: Task) {
    if t == IDLE then k.state == Rdy && k.prio == IDLE_PRI && k.bPrio == IDLE_PRI && k.mutexes == []
    else
      && k.prio < IDLE_PRI && k.bPrio < IDLE_PRI
      && k.suspends <= SUSPEND_MAX
      && (k.state in {Suspended, PendSuspended, SleepSuspended} ==> k.suspends >= 1)
  }

  ghost predicate TasksOk(s: State) {
    && IDLE in s.tasks
    && (forall t :: t in s.tasks ==> TaskOk(t, s.tasks[t]))
    && s.active in s.tasks
  }

  /** Everything but the priorities being the inherited ones. */
  ghost predicate Base(s: State, rel: Option<Oid>) {
    WaitsOk(s) && SortedOk(s) && OwnsOk(s, rel) && ReadyOk(s, None) && TicksOk(s) && TasksOk(s)
  }

  function FirstPrio(s: State, m: Oid): nat {
    if s.O(m).waiters == [] then PRI_MAX else s.T(s.O(m).waiters[0]).prio
  }

  ghost predicate IsMin(s: State, ms: seq<Oid>, acc: nat, v: nat) {
    && v <= acc
    && (forall m :: m in ms ==> v <= FirstPrio(s, m))
    && (v == acc || exists m :: m in ms && v == FirstPrio(s, m))
  }

  /** Priority inheritance at t: `prio` is the best of `b_prio` and the first
      waiters of the mutexes t holds. */
  ghost predicate PiAt(s: State, t: Tid) {
    IsMin(s, s.T(t).mutexes, s.T(t).bPrio, s.T(t).prio)
  }

  ghost predicate PiOk(s: State, x: Option<Tid>) {
    forall t :: t in s.tasks && s.tasks[t].Live() && Some(t) != x ==> PiAt(s, t)
  }

  /** Nobody waits for a deleted object. */
  ghost predicate NoneWaits(s: State) {
    forall o :: o in s.objs && s.objs[o].kind == NoKind ==> s.objs[o].waiters == []
  }

  /** Outside interrupts, and while the scheduler is locked, the running task
      is ready; with neither it is the head of the best ready list. */
  ghost predicate ActiveOk(s: State) {
    && s.active in s.tasks
    && (s.nesting == 0 || s.schedLock > 0 ==> s.T(s.active).state == Rdy)
    && (s.nesting == 0 && s.schedLock == 0 ==> s.active == Preferred(s))
  }

  ghost predicate Inv(s: State) {
    Base(s, None) && PiOk(s, None) && NoneWaits(s) && ActiveOk(s)
  }

  /** The object a pending task waits for. */
  lemma WaitTarget(s: State, t: Tid)
    requires WaitsOk(s) && t in s.tasks && s.tasks[t].Waiting()
    ensures s.tasks[t].blkObj.Some? && s.tasks[t].blkObj.value in s.objs && t in s.objs[s.tasks[t].blkObj.value].waiters
  {
  }

  lemma NoDupWaiters(s: State, m: Oid)
    requires WaitsOk(s) && m in s.objs
    ensures NoDup(s.objs[m].waiters)
  {
  }

  // ---- sorted wait lists ---------------------------------------------------

  lemma {:induction false} RemoveSorted(s: State, q: seq<Tid>, t: Tid)
    requires Sorted(s, q)
    ensures Sorted(s, Remove(q, t))
  {
    hide NoDup;
    if q != [] {
      assert forall i :: 0 <= i < |q[1..]| ==> q[1..][i] == q[i + 1];
      RemoveSorted(s, q[1..], t);
      var r := Remove(q[1..], t);
      forall y | y in r ensures s.T(q[0]).prio <= s.T(y).prio { assert y in q[1..]; }
    }
  }

  lemma {:induction false} InsertSorted(s: State, q: seq<Tid>, t: Tid)
    requires Sorted(s, q)
    ensures Sorted(s, InsertByPrio(s, q, t))
  {
    if q != [] && s.T(q[0]).prio <= s.T(t).prio {
      assert forall i :: 0 <= i < |q[1..]| ==> q[1..][i] == q[i + 1];
      InsertSorted(s, q[1..], t);
      var r := InsertByPrio(s, q[1..], t);
      forall y | y in r ensures s.T(q[0]).prio <= s.T(y).prio {
        if y != t { assert y in q[1..]; }
      }
    }
  }

  lemma SortedFrame(s: State, s1: State, q: seq<Tid>)
    requires Sorted(s, q)
    requires forall t :: t in q ==> s1.T(t).prio == s.T(t).prio
    ensures Sorted(s1, q)
  {
  }

  // ---- ready queue -----------------------------------------------------------

  lemma ReadyRmOk(s: State, t: Tid)
    requires ReadyOk(s, None) && TasksOk(s)
    requires t in s.tasks && s.tasks[t].state == Rdy && t != IDLE
    ensures ReadyOk(ReadyRm(s, t), Some(t))
  {
    var s1 := ReadyRm(s, t);
    var p := s.tasks[t].prio;
    assert ListOk(s, p, None);
    assert ListOk(s1, p, Some(t)) by {
      if |s.ready[p]| <= 1 { assert s.ready[p] == [t]; }
    }
    forall q | 0 <= q < PRI_MAX ensures ListOk(s1, q, Some(t)) {
      assert ListOk(s, q, None);
    }
    ReadyRmIndex(s, t);
  }

  lemma ReadyRmIndex(s: State, t: Tid)
    requires ReadyOk(s, None) && TasksOk(s)
    requires t in s.tasks && s.tasks[t].state == Rdy && t != IDLE
    ensures IndexOk(ReadyRm(s, t))
  {
    var s1 := ReadyRm(s, t);
    var p := s.tasks[t].prio;
    assert ListOk(s, p, None);
    if |s.ready[p]| > 1 {
      var y := s.ready[p][if s.ready[p][0] == t then 1 else 0];
      assert y in s1.ready[p];
    } else {
      assert s.ready[p] == [t];
      assert ListOk(s, IDLE_PRI, None) && IDLE in s.ready[IDLE_PRI];
      assert IDLE_PRI in s1.bits;
    }
  }

  lemma ReadyAddOk(s: State, t: Tid, atHead: bool)
    requires ReadyOk(s, Some(t))
    requires t in s.tasks && s.tasks[t].state == Rdy && s.tasks[t].prio < PRI_MAX
    ensures ReadyOk(ReadyAdd(s, t, atHead), None)
  {
    var p := s.tasks[t].prio;
    var s1 := ReadyAdd(s, t, atHead);
    assert ListOk(s, p, Some(t));
    assert forall y :: y in s1.ready[p] <==> y in s.ready[p] || y == t;
    forall q | 0 <= q < PRI_MAX ensures ListOk(s1, q, None) {
      assert ListOk(s, q, Some(t));
    }
  }

  /** The ready queue does not see the fields of x. */
  lemma ReadyFrame(s: State, s1: State, x: Tid)
    requires ReadyOk(s, Some(x))
    requires s1.ready == s.ready && s1.bits == s.bits && s1.highest == s.highest
    requires forall t :: t != x ==> (t in s1.tasks <==> t in s.tasks)
    requires forall t :: t in s.tasks && t != x ==> s1.tasks[t].state == s.tasks[t].state && s1.tasks[t].prio == s.tasks[t].prio
    ensures ReadyOk(s1, Some(x))
    ensures s1.T(x).state != Rdy ==> ReadyOk(s1, None)
  {
    forall p | 0 <= p < PRI_MAX ensures ListOk(s1, p, Some(x)) && (s1.T(x).state != Rdy ==> ListOk(s1, p, None)) {
      assert ListOk(s, p, Some(x));
    }
  }

  /** No task became or ceased to be ready, and no priority changed. */
  lemma ReadySame(s: State, s1: State)
    requires ReadyOk(s, None)
    requires s1.ready == s.ready && s1.bits == s.bits && s1.highest == s.highest
    requires s1.tasks.Keys == s.tasks.Keys
    requires forall t :: t in s.tasks ==>
      (s1.tasks[t].state == Rdy <==> s.tasks[t].state == Rdy) && s1.tasks[t].prio == s.tasks[t].prio
    ensures ReadyOk(s1, None)
  {
    forall p | 0 <= p < PRI_MAX ensures ListOk(s1, p, None) {
      assert ListOk(s, p, None);
    }
  }

  /** A task that is not ready is on no ready list. */
  lemma ReadyOut(s: State, t: Tid)
    requires ReadyOk(s, None) && s.T(t).state != Rdy
    ensures ReadyOk(s, Some(t))
  {
    forall p | 0 <= p < PRI_MAX ensures ListOk(s, p, Some(t)) {
      assert ListOk(s, p, None);
    }
  }

  // ---- SetPrio ---------------------------------------------------------------

  lemma SetPrioReady(s: State, t: Tid, p: nat)
    requires ReadyOk(s, None) && TasksOk(s)
    requires t in s.tasks && s.tasks[t].Live() && t != IDLE && p < IDLE_PRI
    ensures ReadyOk(SetPrio(s, t, p), None)
  {
    var s1 := SetPrio(s, t, p);
    var k := s.tasks[t];
    SetPrioFrame(s, t, p);
    if k.state == Rdy {
      ReadyRmOk(s, t);
      var a := ReadyRm(s, t);
      var b := a.PutT(t, k.(prio := p));
      ReadyFrame(a, b, t);
      ReadyAddOk(b, t, t == s.active);
    } else {
      ReadyOut(s, t);
      ReadyFrame(s, s1, t);
    }
  }

  /** What SetPrio does to the objects. */
  lemma SetPrioObjs(s: State, t: Tid, p: nat)
    requires WaitsOk(s) && t in s.tasks && s.tasks[t].Live()
    ensures var s1 := SetPrio(s, t, p);
      if s.tasks[t].Waiting() && s.O(s.tasks[t].blkObj.value).policy == ByPrio then
        var o := s.tasks[t].blkObj.value;
        s1.objs == s.objs[o := s.objs[o].(waiters :=
          InsertByPrio(s.PutT(t, s.tasks[t].(prio := p)), Remove(s.objs[o].waiters, t), t))]
      else s1.objs == s.objs
    ensures
      var s1 := SetPrio(s, t, p);
      s1.ticks == s.ticks && s1.now == s.now && s1.active == s.active && s1.schedLock == s.schedLock && s1.nesting == s.nesting
  {
    hide ReadyAdd, ReadyRm, InsertByPrio, Remove, WaitsOk;
    if s.tasks[t].Waiting() { WaitTarget(s, t); }
    ReadyRmFrame(s, t);
    ReadyAddFrame(ReadyRm(s, t).PutT(t, s.T(t).(prio := p)), t, t == s.active);
  }

  /** Only t's priority changed, and t moved within its wait list o. */
  lemma ReorderWaits(s: State, s1: State, t: Tid, o: Oid, q: seq<Tid>)
    requires WaitsOk(s)
    requires t in s.tasks && o in s.objs && s1.tasks == s.tasks[t := s.tasks[t].(prio := s1.T(t).prio)]
    requires s1.objs == s.objs[o := s.objs[o].(waiters := q)]
    requires NoDup(q) && forall y :: y in q <==> y in s.objs[o].waiters
    ensures WaitsOk(s1)
  {
  }

  lemma PrioWaits(s: State, s1: State, t: Tid)
    requires WaitsOk(s)
    requires t in s.tasks && s1.tasks == s.tasks[t := s.tasks[t].(prio := s1.T(t).prio)]
    requires s1.objs == s.objs
    ensures WaitsOk(s1)
  {
  }

  lemma SetPrioWaits(s: State, t: Tid, p: nat)
    requires WaitsOk(s)
    requires t in s.tasks && s.tasks[t].Live()
    ensures WaitsOk(SetPrio(s, t, p))
  {
    var s1 := SetPrio(s, t, p);
    SetPrioFrame(s, t, p);
    SetPrioObjs(s, t, p);
    if s1.objs == s.objs {
      PrioWaits(s, s1, t);
    } else {
      var o := s.tasks[t].blkObj.value;
      ReorderWaits(s, s1, t, o, s1.objs[o].waiters);
    }
  }

  /** After t got a new priority, wait list q without t and with t put back in. */
  lemma ReorderSorted(s: State, s1: State, t: Tid, q: seq<Tid>)
    requires Sorted(s, q)
    requires forall u :: u != t ==> s1.T(u).prio == s.T(u).prio
    ensures Sorted(s1, InsertByPrio(s1, Remove(q, t), t))
  {
    RemoveSorted(s, q, t);
    SortedFrame(s, s1, Remove(q, t));
    InsertSorted(s1, Remove(q, t), t);
  }

  lemma ReorderSortedOk(s: State, s1: State, t: Tid, o: Oid, p: nat)
    requires WaitsOk(s) && SortedOk(s)
    requires t in s.tasks && s1.tasks == s.tasks[t := s.tasks[t].(prio := p)]
    requires o in s.objs && t in s.objs[o].waiters && s.objs[o].policy == ByPrio
    requires s1.objs == s.objs[o := s.objs[o].(waiters :=
      InsertByPrio(s.PutT(t, s.tasks[t].(prio := p)), Remove(s.objs[o].waiters, t), t))]
    ensures SortedOk(s1)
  {
    hide Sorted, InsertByPrio, Remove;
    var a := s.PutT(t, s.tasks[t].(prio := p));
    var q := s.objs[o].waiters;
    assert Sorted(s, q);
    ReorderSorted(s, a, t, q);
    SortedFrame(a, s1, InsertByPrio(a, Remove(q, t), t));
    SortedElsewhere(s, s1, t);
    forall o' | o' in s1.objs && s1.objs[o'].policy == ByPrio ensures Sorted(s1, s1.objs[o'].waiters) {
      if o' != o {
        assert t !in s.objs[o'].waiters;
      }
    }
  }

  lemma PrioSortedOk(s: State, s1: State, t: Tid, p: nat)
    requires WaitsOk(s) && SortedOk(s)
    requires t in s.tasks && s1.tasks == s.tasks[t := s.tasks[t].(prio := p)]
    requires s1.objs == s.objs
    requires s.tasks[t].Waiting() ==> s.O(s.tasks[t].blkObj.value).policy == Fifo
    ensures SortedOk(s1)
  {
    SortedElsewhere(s, s1, t);
  }

  lemma SetPrioSorted(s: State, t: Tid, p: nat)
    requires WaitsOk(s) && SortedOk(s)
    requires t in s.tasks && s.tasks[t].Live()
    ensures SortedOk(SetPrio(s, t, p))
  {
    hide SortedOk;
    SetPrioFrame(s, t, p);
    SetPrioObjs(s, t, p);
    var k := s.tasks[t];
    if k.Waiting() && s.O(k.blkObj.value).policy == ByPrio {
      ReorderSortedOk(s, SetPrio(s, t, p), t, k.blkObj.value, p);
    } else {
      PrioSortedOk(s, SetPrio(s, t, p), t, p);
    }
  }

  /** Lists of held mutexes hold no new pointers, and what was a mutex or a deleted object still is. */
  ghost predicate PointersKept(s: State, s1: State) {
    && s1.objs.Keys == s.objs.Keys
    && (forall t, m :: t in s1.tasks && m in s1.tasks[t].mutexes ==> (t in s.tasks && m in s.tasks[t].mutexes) || MutexPtr(s, m))
    && forall m :: MutexPtr(s, m) ==> MutexPtr(s1, m)
  }

  lemma ListsFrame(s: State, s1: State)
    requires PointersKept(s, s1) && (forall t, m :: t in s.tasks && m in s.tasks[t].mutexes ==> MutexPtr(s, m))
    ensures forall t, m :: t in s1.tasks && m in s1.tasks[t].mutexes ==> MutexPtr(s1, m)
  {
    hide MutexPtr;
  }

  lemma NextFrame(s: State, s1: State, m: Oid)
    requires PointersKept(s, s1) && NextPtr(s, m) && s1.O(m).next == s.O(m).next
    ensures NextPtr(s1, m)
  {
    hide MutexPtr;
  }

  /** Links look only at kinds, owners, links and lists. */
  lemma LinksFrame(s: State, s1: State)
    requires LinksOk(s) && PointersKept(s, s1)
    requires forall m :: m in s.objs ==> s1.objs[m].next == s.objs[m].next && (Loose(s1.objs[m]) ==> Loose(s.objs[m]))
    ensures LinksOk(s1)
  {
    hide MutexPtr, Loose;
    ListsFrame(s, s1);
    var rank: map<Oid, nat> :| Ranked(s.objs, rank);
    forall m | m in s1.objs ensures RankUp(s1.objs, rank, m) && NextPtr(s1, m) {
      assert RankUp(s.objs, rank, m) && NextPtr(s, m);
      NextFrame(s, s1, m);
    }
    assert Ranked(s1.objs, rank);
  }

  /** m becomes loose and points to nothing loose. */
  lemma LinksFree(s: State, s1: State, m: Oid)
    requires LinksOk(s) && PointersKept(s, s1) && m in s.objs && m in s1.objs && s1.objs == s.objs[m := s1.objs[m]]
    requires NextPtr(s1, m)
    requires s1.objs[m].next.Some? ==> s1.objs[m].next != Some(m) && s1.objs[m].next.value in s1.objs && !Loose(s1.objs[s1.objs[m].next.value])
    ensures LinksOk(s1)
  {
    hide MutexPtr, Loose;
    ListsFrame(s, s1);
    var rank: map<Oid, nat> :| Ranked(s.objs, rank);
    var rank1 := rank[m := MaxRank(rank, rank.Keys)];
    forall x | x in s1.objs ensures RankUp(s1.objs, rank1, x) && NextPtr(s1, x) {
      assert RankUp(s.objs, rank, x) && NextPtr(s, x);
      if x != m { NextFrame(s, s1, x); }
    }
    assert Ranked(s1.objs, rank1);
  }

  /** A rank above those of all keys. */
  ghost function MaxRank(rank: map<Oid, nat>, keys: set<Oid>): (r: nat)
    requires keys <= rank.Keys
    ensures forall k :: k in keys ==> rank[k] < r
  {
    if keys == {} then 0
    else
      var k :| k in keys;
      var r := MaxRank(rank, keys - {k});
      if rank[k] < r then r else rank[k] + 1
  }

  lemma OwnsLinks(s: State, s1: State, rel: Option<Oid>)
    requires LinksOk(s) && (rel.Some? ==> PointsToHeld(s, rel.value))
    requires s1.tasks.Keys == s.tasks.Keys && s1.objs.Keys == s.objs.Keys
    requires forall t :: t in s.tasks ==> s1.tasks[t].mutexes == s.tasks[t].mutexes
    requires forall o :: o in s.objs ==>
      s1.objs[o].kind == s.objs[o].kind && s1.objs[o].owner == s.objs[o].owner && s1.objs[o].next == s.objs[o].next
    ensures LinksOk(s1) && (rel.Some? ==> PointsToHeld(s1, rel.value))
  {
    hide LinksOk, Ranked;
    assert forall m :: MutexPtr(s, m) ==> MutexPtr(s1, m);
    LinksFrame(s, s1);
  }

  /** Ownership looks only at who owns what, who waits, and who is alive. */
  lemma OwnsFrame(s: State, s1: State, rel: Option<Oid>)
    requires OwnsOk(s, rel)
    requires s1.tasks.Keys == s.tasks.Keys && s1.objs.Keys == s.objs.Keys
    requires forall t :: t in s.tasks ==> s1.tasks[t].mutexes == s.tasks[t].mutexes && (s1.tasks[t].Live() <==> s.tasks[t].Live())
    requires forall o :: o in s.objs ==>
      && s1.objs[o].kind == s.objs[o].kind && s1.objs[o].policy == s.objs[o].policy
      && s1.objs[o].owner == s.objs[o].owner && s1.objs[o].next == s.objs[o].next
      && (s1.objs[o].nested == s.objs[o].nested || (s1.objs[o].nested <= NESTED_MAX && (s1.objs[o].nested >= 1 || rel == Some(o))))
      && forall y :: y in s1.objs[o].waiters ==> y in s.objs[o].waiters
    ensures OwnsOk(s1, rel)
  {
    hide LinksOk, PointsToHeld, HoldsOk, MutexesOk;
    OwnsLinks(s, s1, rel);
    HoldsFrame(s, s1);
    MutexesFrame(s, s1, rel);
  }

  lemma HoldsFrame(s: State, s1: State)
    requires HoldsOk(s) && s1.tasks.Keys == s.tasks.Keys && s1.objs.Keys == s.objs.Keys
    requires forall t :: t in s.tasks ==> s1.tasks[t].mutexes == s.tasks[t].mutexes && (s1.tasks[t].Live() <==> s.tasks[t].Live())
    requires forall o :: o in s.objs ==> s1.objs[o].kind == s.objs[o].kind && s1.objs[o].owner == s.objs[o].owner
    ensures HoldsOk(s1)
  {
    hide NoDup;
  }

  lemma MutexesFrame(s: State, s1: State, rel: Option<Oid>)
    requires MutexesOk(s, rel)
    requires s1.tasks.Keys == s.tasks.Keys && s1.objs.Keys == s.objs.Keys
    requires forall t :: t in s.tasks ==> s1.tasks[t].mutexes == s.tasks[t].mutexes && (s1.tasks[t].Live() <==> s.tasks[t].Live())
    requires forall o :: o in s.objs ==>
      && s1.objs[o].kind == s.objs[o].kind && s1.objs[o].policy == s.objs[o].policy
      && s1.objs[o].owner == s.objs[o].owner
      && (s1.objs[o].nested == s.objs[o].nested || (s1.objs[o].nested <= NESTED_MAX && (s1.objs[o].nested >= 1 || rel == Some(o))))
      && forall y :: y in s1.objs[o].waiters ==> y in s.objs[o].waiters
    ensures MutexesOk(s1, rel)
  {
    forall m | m in s1.objs && s1.objs[m].kind == Mutex ensures MutexOk(s1, m, Some(m) == rel) {
      assert MutexOk(s, m, Some(m) == rel);
      assert s1.objs[m].waiters == [] || s1.objs[m].waiters[0] in s.objs[m].waiters;
    }
  }

  lemma SetPrioOwns(s: State, t: Tid, p: nat, rel: Option<Oid>)
    requires WaitsOk(s) && OwnsOk(s, rel)
    requires t in s.tasks && s.tasks[t].Live()
    ensures OwnsOk(SetPrio(s, t, p), rel)
  {
    SetPrioFrame(s, t, p);
    SetPrioObjs(s, t, p);
    OwnsFrame(s, SetPrio(s, t, p), rel);
  }

  lemma SetPrioTicks(s: State, t: Tid, p: nat)
    requires TicksOk(s) && WaitsOk(s) && t in s.tasks && s.tasks[t].Live()
    ensures TicksOk(SetPrio(s, t, p))
  {
    hide SetPrio, WaitsOk, NoDup;
    SetPrioFrame(s, t, p);
    SetPrioObjs(s, t, p);
  }

  lemma SetPrioTasks(s: State, t: Tid, p: nat)
    requires TasksOk(s) && WaitsOk(s) && t in s.tasks && s.tasks[t].Live() && t != IDLE && p < IDLE_PRI
    ensures TasksOk(SetPrio(s, t, p))
  {
    hide SetPrio, WaitsOk;
    SetPrioFrame(s, t, p);
    SetPrioObjs(s, t, p);
    assert TaskOk(t, s.tasks[t]);
  }

  lemma SetPrioBase(s: State, t: Tid, p: nat, rel: Option<Oid>)
    requires Base(s, rel)
    requires t in s.tasks && s.tasks[t].Live() && t != IDLE && p < IDLE_PRI
    ensures Base(SetPrio(s, t, p), rel)
  {
    hide ReadyOk, WaitsOk, SortedOk, OwnsOk, TicksOk, TasksOk, SetPrio;
    SetPrioReady(s, t, p);
    SetPrioWaits(s, t, p);
    SetPrioSorted(s, t, p);
    SetPrioOwns(s, t, p, rel);
    SetPrioTicks(s, t, p);
    SetPrioTasks(s, t, p);
  }

  /** Wait lists t is not on stay sorted when only t's priority changes. */
  lemma SortedElsewhere(s: State, s1: State, t: Tid)
    requires SortedOk(s) && WaitsOk(s)
    requires s1.tasks.Keys == s.tasks.Keys && forall u :: u in s.tasks && u != t ==> s1.tasks[u].prio == s.tasks[u].prio
    ensures forall o :: o in s.objs && s.objs[o].policy == ByPrio && t !in s.objs[o].waiters ==> Sorted(s1, s.objs[o].waiters)
  {
    forall o | o in s.objs && s.objs[o].policy == ByPrio && t !in s.objs[o].waiters
      ensures Sorted(s1, s.objs[o].waiters)
    {
      SortedFrame(s, s1, s.objs[o].waiters);
    }
  }
}
