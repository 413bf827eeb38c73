/** Changing a priority restores the inheritance equation everywhere. */
module KernelInheritance {
  import opened Options
  import opened Lists
  import opened KernelState
  import opened KernelSteps
  import opened KernelInvariants

  // ---- the minimum ---------------------------------------------------------

  lemma {:induction false} MinFirstIsMin(s: State, ms: seq<Oid>, acc: nat)
    requires acc <= PRI_MAX
    ensures IsMin(s, ms, acc, MinFirst(s, ms, acc))
  {
    if ms != [] {
      var f := FirstPrio(s, ms[0]);
      var acc1 := if f < acc then f else acc;
      MinFirstIsMin(s, ms[1..], acc1);
      var v := MinFirst(s, ms[1..], acc1);
      assert MinFirst(s, ms, acc) == v;
      forall m | m in ms ensures v <= FirstPrio(s, m) {
        if m != ms[0] { assert m in ms[1..]; }
      }
      if v != acc {
        if v == acc1 { assert ms[0] in ms; }
        else {
          var m :| m in ms[1..] && v == FirstPrio(s, m);
          assert m in ms;
        }
      }
    }
  }

  lemma IsMinUnique(s: State, ms: seq<Oid>, acc: nat, v: nat, w: nat)
    requires IsMin(s, ms, acc, v) && IsMin(s, ms, acc, w)
    ensures v == w
  {
  }

  lemma LookIsMin(s: State, t: Tid)
    requires s.T(t).bPrio <= PRI_MAX
    ensures IsMin(s, s.T(t).mutexes, s.T(t).bPrio, Look(s, t))
    ensures PiAt(s, t) <==> s.T(t).prio == Look(s, t)
  {
    MinFirstIsMin(s, s.T(t).mutexes, s.T(t).bPrio);
  }

  /** The minimum only depends on the first waiters. */
  lemma IsMinFrame(s: State, s1: State, ms: seq<Oid>, acc: nat, v: nat)
    requires IsMin(s, ms, acc, v)
    requires forall m :: m in ms ==> FirstPrio(s1, m) == FirstPrio(s, m)
    ensures IsMin(s1, ms, acc, v)
  {
  }

  // ---- first waiters under SetPrio -------------------------------------------

  lemma SetPrioFirstElsewhere(s: State, t: Tid, p: nat, m: Oid)
    requires WaitsOk(s) && t in s.tasks && s.tasks[t].Live()
    requires t !in s.O(m).waiters
    ensures FirstPrio(SetPrio(s, t, p), m) == FirstPrio(s, m)
  {
    hide Remove, InsertByPrio, ReadyAdd, ReadyRm;
    SetPrioFrame(s, t, p);
    SetPrioObjs(s, t, p);
  }

  lemma FirstIsBest(s: State, q: seq<Tid>, t: Tid)
    requires Sorted(s, q) && t in q
    ensures s.T(q[0]).prio <= s.T(t).prio
  {
    var i :| 0 <= i < |q| && q[i] == t;
    assert s.T(q[0]).prio <= s.T(q[i]).prio;
  }

  lemma SetPrioFirst(s: State, t: Tid, p: nat, m: Oid)
    requires WaitsOk(s) && SortedOk(s) && t in s.tasks
    requires t in s.O(m).waiters && s.O(m).policy == ByPrio
    ensures
      var f, f1 := FirstPrio(s, m), FirstPrio(SetPrio(s, t, p), m);
      && f <= s.tasks[t].prio
      && (p <= f ==> f1 == p)
      && (f < s.tasks[t].prio && f <= p ==> f1 == f)
      && (f1 >= p || f1 >= f)
  {
    hide Remove, InsertByPrio, ReadyAdd, ReadyRm, Sorted, NoDup;
    SetPrioFrame(s, t, p);
    SetPrioObjs(s, t, p);
    var q := s.objs[m].waiters;
    var r := Remove(q, t);
    assert Sorted(s, q);
    FirstIsBest(s, q, t);
    if r != [] {
      assert r[0] in r;
      FirstIsBest(s, q, r[0]);
    }
  }

  // ---- task_pri_change -------------------------------------------------------

  /** All of the inheritance equation except at t and x. */
  ghost predicate PiBut(s: State, t: Tid, x: Option<Tid>) {
    forall u :: u in s.tasks && s.tasks[u].Live() && u != t && Some(u) != x ==> PiAt(s, u)
  }

  /** Setting t's priority disturbs the equation at most at the owner of the mutex t waits for. */
  /** t waits for no mutex of a task that is not the owner it passes its priority to. */
  lemma NotWaitedBy(s: State, t: Tid, u: Tid, m: Oid)
    requires OwnsOk(s, None) && WaitsOk(s) && t in s.tasks
    requires u in s.tasks && s.tasks[u].Live() && m in s.tasks[u].mutexes && Some(u) != NextOwner(s, t)
    ensures t !in s.O(m).waiters
  {
    hide LinksOk, NoDup, MutexesOk;
  }

  lemma SetPrioPi(s: State, t: Tid, p: nat, x: Option<Tid>, u: Tid)
    requires Base(s, None) && PiBut(s, t, x)
    requires t in s.tasks && s.tasks[t].Live() && t != IDLE
    requires Some(t) == x || IsMin(s, s.tasks[t].mutexes, s.tasks[t].bPrio, p)
    requires u in s.tasks && s.tasks[u].Live() && Some(u) != x && Some(u) != NextOwner(s, t)
    ensures PiAt(SetPrio(s, t, p), u)
  {
    hide SetPrio, FirstPrio, ReadyOk, TicksOk, SortedOk, TasksOk, OwnsOk, IsMin, WaitsOk;
    var s1 := SetPrio(s, t, p);
    SetPrioFrame(s, t, p);
    forall m | m in s.tasks[u].mutexes ensures FirstPrio(s1, m) == FirstPrio(s, m) {
      NotWaitedBy(s, t, u, m);
      SetPrioFirstElsewhere(s, t, p, m);
    }
    assert u != t ==> PiAt(s, u);
    IsMinFrame(s, s1, s.tasks[u].mutexes, s.tasks[u].bPrio, if u == t then p else s.tasks[u].prio);
  }

  /** The three cases of the loop body, seen from the owner o of the mutex t waits for. */
  lemma SetPrioOwner(s: State, t: Tid, p: nat, o: Tid)
    requires Base(s, None)
    requires t in s.tasks && s.tasks[t].Live() && NextOwner(s, t) == Some(o)
    ensures o in s.tasks && s.tasks[o].Live() && o != t && o != IDLE && s.tasks[o].bPrio < IDLE_PRI
    ensures PiAt(s, o) ==>
      var s1 := SetPrio(s, t, p);
      && s.tasks[o].prio <= s.tasks[t].prio
      && (s.tasks[o].prio > p ==> IsMin(s1, s.tasks[o].mutexes, s.tasks[o].bPrio, p))
      && (s.tasks[o].prio <= p && s.tasks[o].prio < s.tasks[t].prio ==> PiAt(s1, o))
  {
    hide SetPrio, Base, FirstPrio, SortedOk, WaitsOk;
    WaitedFacts(s, t, o);
    var m := s.tasks[t].blkObj.value;
    if PiAt(s, o) {
      var s1 := SetPrio(s, t, p);
      SetPrioFrame(s, t, p);
      SetPrioFirst(s, t, p, m);
      forall m' | m' in s.tasks[o].mutexes && m' != m ensures FirstPrio(s1, m') == FirstPrio(s, m') {
        SetPrioFirstElsewhere(s, t, p, m');
      }
    }
  }

  /** The mutex t waits for and its owner o. */
  lemma WaitedFacts(s: State, t: Tid, o: Tid)
    requires Base(s, None)
    requires t in s.tasks && s.tasks[t].Live() && NextOwner(s, t) == Some(o)
    ensures WaitsOk(s) && SortedOk(s)
    ensures o in s.tasks && s.tasks[o].Live() && o != t && o != IDLE && s.tasks[o].bPrio < IDLE_PRI
    ensures var m := s.tasks[t].blkObj.value;
      t in s.O(m).waiters && s.O(m).policy == ByPrio && m in s.tasks[o].mutexes
    ensures forall m' :: m' in s.tasks[o].mutexes && m' != s.tasks[t].blkObj.value ==> t !in s.O(m').waiters
  {
    hide ReadyOk, TicksOk, SortedOk, NoDup;
    assert MutexOk(s, s.tasks[t].blkObj.value, false);
    assert TaskOk(o, s.tasks[o]);
  }

  ghost predicate ChangeReady(s: State, t: Tid, p: nat, x: Option<Tid>) {
    && Base(s, None) && PiBut(s, t, x)
    && t in s.tasks && s.tasks[t].Live() && t != IDLE && p < IDLE_PRI
    && (Some(t) == x || IsMin(s, s.tasks[t].mutexes, s.tasks[t].bPrio, p))
    && (x.Some? ==> p <= s.tasks[t].prio && (x == Some(t) || s.T(x.value).prio == p))
  }

  lemma ChangeStepSame(s: State, t: Tid, p: nat, x: Option<Tid>)
    requires ChangeReady(s, t, p, x) && s.tasks[t].prio == p
    ensures PiOk(s, x)
  {
    forall u | u in s.tasks && s.tasks[u].Live() && Some(u) != x ensures PiAt(s, u) {
    }
  }

  /** After SetPrio the equation holds but at x and at the next owner. */
  lemma ChangeStepOthers(s: State, t: Tid, p: nat, x: Option<Tid>)
    requires ChangeReady(s, t, p, x)
    ensures var s1 := SetPrio(s, t, p);
      forall u :: u in s1.tasks && s1.tasks[u].Live() && Some(u) != x && Some(u) != NextOwner(s, t) ==> PiAt(s1, u)
  {
    var s1 := SetPrio(s, t, p);
    SetPrioFrame(s, t, p);
    forall u | u in s1.tasks && s1.tasks[u].Live() && Some(u) != x && Some(u) != NextOwner(s, t) ensures PiAt(s1, u) {
      SetPrioPi(s, t, p, x, u);
    }
  }

  /** The loop goes on with the owner o and priority q. */
  lemma ChangeOn(s: State, t: Tid, p: nat, x: Option<Tid>, o: Tid, q: nat)
    requires ChangeReady(s, t, p, x) && NextOwner(s, t) == Some(o)
    requires var s1 := SetPrio(s, t, p);
      if s1.T(o).prio > p then q == p else s1.T(o).prio == s.tasks[t].prio != p && q == Look(s1, o)
    ensures ChangeReady(SetPrio(s, t, p), o, q, x)
  {
    hide Base, SetPrio, Look, IsMin;
    var s1 := SetPrio(s, t, p);
    SetPrioFrame(s, t, p);
    SetPrioBase(s, t, p, None);
    ChangeStepOthers(s, t, p, x);
    SetPrioOwner(s, t, p, o);
    assert s1.tasks[o] == s.tasks[o];
    LookIsMin(s1, o);
    LookBound(s1, o);
    assert Some(o) != x ==> PiAt(s, o);
  }

  /** The loop stops: the owner o already runs at the right priority. */
  lemma ChangeStop(s: State, t: Tid, p: nat, x: Option<Tid>, o: Tid)
    requires ChangeReady(s, t, p, x) && NextOwner(s, t) == Some(o)
    requires var s1 := SetPrio(s, t, p);
      s1.T(o).prio <= p && (s1.T(o).prio == s.tasks[t].prio ==> Look(s1, o) == s1.T(o).prio)
    ensures PiOk(SetPrio(s, t, p), x)
  {
    hide Base, SetPrio, Look, IsMin;
    var s1 := SetPrio(s, t, p);
    SetPrioFrame(s, t, p);
    ChangeStepOthers(s, t, p, x);
    SetPrioOwner(s, t, p, o);
    assert s1.tasks[o] == s.tasks[o];
    LookIsMin(s1, o);
    assert Some(o) != x ==> PiAt(s, o);
  }

  lemma LookBound(s: State, t: Tid)
    requires s.T(t).bPrio <= PRI_MAX
    ensures Look(s, t) <= s.T(t).bPrio
  {
    LookIsMin(s, t);
  }

  /** `task_pri_change` re-establishes the inheritance equation. In the lock
      path x is the owner about to inherit from a task not yet queued. */
  lemma {:induction false} PriChangePi(s: State, t: Tid, p: nat, x: Option<Tid>)
    requires ChangeReady(s, t, p, x)
    ensures Base(PriChange(s, t, p), None) && PiOk(PriChange(s, t, p), x)
    decreases if p > s.T(t).prio then 1 else 0,
              if p > s.T(t).prio then |UpTo(s, s.T(t).prio)| else |Below(s, p)|
  {
    hide Base, SetPrio, IsMin, PiBut, PiAt, Look;
    if s.tasks[t].prio == p {
      ChangeStepSame(s, t, p, x);
    } else {
      var s1 := SetPrio(s, t, p);
      SetPrioFrame(s, t, p);
      SetPrioShrinks(s, t, p);
      SetPrioBase(s, t, p, None);
      match NextOwner(s, t) {
        case None =>
          ChangeStepOthers(s, t, p, x);
        case Some(o) =>
          if s1.T(o).prio > p {
            ChangeOn(s, t, p, x, o, p);
            PriChangePi(s1, o, p, x);
          } else if s1.T(o).prio == s.tasks[t].prio && Look(s1, o) != s1.T(o).prio {
            ChangeOn(s, t, p, x, o, Look(s1, o));
            PriChangePi(s1, o, Look(s1, o), x);
          } else {
            ChangeStop(s, t, p, x, o);
          }
      }
    }
  }
}
