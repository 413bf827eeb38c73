/** What the invariant means: transitive inheritance, no priority inversion, and who
    runs and who gets a released mutex. */
module KernelEffective {
  import opened Options
  import opened Lists
  import opened KernelState
  import opened KernelSteps
  import opened KernelInvariants
  import opened KernelInheritance
  import opened KernelWaits
  import opened KernelMutexes
  import opened KernelHandOver
  import opened KernelCalls
  import opened KernelTasks
  import opened KernelDeletion
  import opened KernelRun

  /** u waits for a mutex that t owns. */
  ghost predicate WaitsFor(s: State, u: Tid, t: Tid) {
    u in s.tasks && NextOwner(s, u) == Some(t)
  }

  /** A chain of tasks, each waiting for a mutex of the one before it. */
  ghost predicate Chain(s: State, c: seq<Tid>) {
    && c != [] && (forall i :: 0 <= i < |c| ==> c[i] in s.tasks && s.tasks[c[i]].Live())
    && (forall i :: 0 <= i < |c| - 1 ==> WaitsFor(s, c[i + 1], c[i]))
  }

  /** A chain of waiters leads from t back to t. */
  ghost predicate OnCycle(s: State, t: Tid) {
    exists c :: Cycle(s, t, c)
  }

  ghost predicate Cycle(s: State, t: Tid, c: seq<Tid>) {
    Chain(s, c) && |c| >= 2 && c[0] == t && c[|c| - 1] == t
  }

  /** The wait-for relation has no cycle: waiting goes down in rank. */
  ghost predicate Acyclic(s: State, rank: map<Tid, nat>) {
    && rank.Keys == s.tasks.Keys
    && forall u, t :: WaitsFor(s, u, t) && t in s.tasks ==> rank[u] < rank[t]
  }

  /** One link: an owner runs at least as well as any task waiting for it. */
  lemma LinkBound(s: State, u: Tid, t: Tid)
    requires Inv(s) && WaitsFor(s, u, t)
    ensures t in s.tasks && s.tasks[t].Live() && s.tasks[t].prio <= s.tasks[u].prio
  {
    hide ReadyOk, TicksOk, ActiveOk, NoneWaits;
    var m := s.tasks[u].blkObj.value;
    assert MutexOk(s, m, false) && Sorted(s, s.objs[m].waiters) && PiAt(s, t);
    var q := s.objs[m].waiters;
    var i :| 0 <= i < |q| && q[i] == u;
    assert s.T(q[0]).prio <= s.T(q[i]).prio;
    assert s.tasks[t].prio <= FirstPrio(s, m);
  }

  /** No priority inversion along a chain, deadlocked or not: the head runs at
      least as well as every task that waits for it, directly or not. */
  lemma {:induction false} ChainBound(s: State, c: seq<Tid>)
    requires Inv(s) && Chain(s, c)
    ensures s.tasks[c[0]].prio <= s.tasks[c[|c| - 1]].prio <= s.tasks[c[|c| - 1]].bPrio
  {
    hide Base, PiOk, NoneWaits, ActiveOk, Inv;
    if |c| == 1 {
      OwnBound(s, c[0]);
    } else {
      var d := c[1..];
      assert forall i :: 0 <= i < |d| ==> d[i] == c[i + 1];
      assert WaitsFor(s, c[1], c[0]);
      assert Chain(s, d) by {
        forall i | 0 <= i < |d| - 1 ensures WaitsFor(s, d[i + 1], d[i]) {
          assert WaitsFor(s, c[i + 1 + 1], c[i + 1]);
        }
      }
      ChainBound(s, d);
      LinkBound(s, c[1], c[0]);
    }
  }

  lemma OwnBound(s: State, t: Tid)
    requires Inv(s) && t in s.tasks && s.tasks[t].Live()
    ensures PiAt(s, t) && s.tasks[t].prio <= s.tasks[t].bPrio
  {
    hide Base, NoneWaits, ActiveOk;
    assert PiAt(s, t);
  }

  lemma ChainGrows(s: State, c: seq<Tid>, u: Tid)
    requires Chain(s, c) && u in s.tasks && s.tasks[u].Live() && WaitsFor(s, u, c[|c| - 1])
    ensures Chain(s, c + [u])
  {
    var d := c + [u];
    forall i | 0 <= i < |d| - 1 ensures WaitsFor(s, d[i + 1], d[i]) {
      if i < |c| - 1 { assert WaitsFor(s, c[i + 1], c[i]); }
    }
  }

  /** A task waits for one mutex only: a chain that comes back to one of its tasks has come
      back to the first, or to the one behind its last. */
  lemma ComesBack(s: State, c: seq<Tid>, j: nat)
    requires Chain(s, c) && 0 < j < |c| && WaitsFor(s, c[j], c[|c| - 1])
    ensures c[j - 1] == c[|c| - 1]
  {
    assert WaitsFor(s, c[j - 1 + 1], c[j - 1]);
  }

  lemma Closes(s: State, c: seq<Tid>, u: Tid)
    requires Chain(s, c) && NoDup(c) && u in c && WaitsFor(s, u, c[|c| - 1])
    ensures OnCycle(s, c[0])
  {
    var j :| 0 <= j < |c| && c[j] == u;
    if j > 0 { ComesBack(s, c, j); }
    ChainGrows(s, c, u);
    assert j == 0;
    assert Cycle(s, c[0], c + [u]);
  }

  function Elements(c: seq<Tid>): set<Tid> { set u | u in c }

  lemma FewerLeft(keys: set<Tid>, c: seq<Tid>, u: Tid)
    requires u in keys && u !in c
    ensures keys - Elements(c + [u]) < keys - Elements(c)
  {
    assert u in keys - Elements(c) && u !in keys - Elements(c + [u]);
    assert forall x :: x in Elements(c) ==> x in Elements(c + [u]);
  }

  /** Following c on from t, which is on no cycle: the priority of t is the base priority
      of some task at the end of a chain of waiters. */
  lemma {:induction false} Attained(s: State, t: Tid, c: seq<Tid>) returns (d: seq<Tid>)
    requires Inv(s) && !OnCycle(s, t) && Chain(s, c) && NoDup(c) && c[0] == t
    requires s.tasks[c[|c| - 1]].prio == s.tasks[t].prio
    ensures Chain(s, d) && d[0] == t && s.tasks[t].prio == s.tasks[d[|d| - 1]].bPrio
    decreases s.tasks.Keys - Elements(c)
  {
    hide Inv, WaitsFor, Elements;
    ChainLive(s, c);
    var last := c[|c| - 1];
    if s.tasks[last].prio == s.tasks[last].bPrio {
      d := c;
    } else {
      var u := DonorOf(s, last);
      ChainGrows(s, c, u);
      if u in c { Closes(s, c, u); }
      FewerLeft(s.tasks.Keys, c, u);
      d := Attained(s, t, c + [u]);
    }
  }

  lemma ChainLive(s: State, c: seq<Tid>)
    requires Chain(s, c)
    ensures c != [] && forall i :: 0 <= i < |c| ==> c[i] in s.tasks && s.tasks[c[i]].Live()
  {
  }

  /** A task above its base priority has inherited it from some waiter. */
  lemma DonorOf(s: State, t: Tid) returns (u: Tid)
    requires Inv(s) && t in s.tasks && s.tasks[t].Live() && s.tasks[t].prio != s.tasks[t].bPrio
    ensures u in s.tasks && s.tasks[u].Live() && WaitsFor(s, u, t) && s.tasks[u].prio == s.tasks[t].prio
  {
    OwnBound(s, t);
    var m :| m in s.tasks[t].mutexes && s.tasks[t].prio == FirstPrio(s, m);
    assert s.tasks[t].prio < IDLE_PRI by { InvTask(s, t); }
    FirstWaits(s, t, m);
    u := s.objs[m].waiters[0];
  }

  lemma FirstWaits(s: State, t: Tid, m: Oid)
    requires Inv(s) && t in s.tasks && s.tasks[t].Live() && m in s.tasks[t].mutexes && FirstPrio(s, m) < IDLE_PRI
    ensures m in s.objs && s.objs[m].waiters != []
    ensures var u := s.objs[m].waiters[0]; u in s.tasks && s.tasks[u].Live() && NextOwner(s, u) == Some(t)
  {
    hide ReadyOk, TicksOk, ActiveOk, NoneWaits, SortedOk, PiOk;
    assert s.objs[m].waiters[0] in s.objs[m].waiters;
  }

  /** Priority inheritance, transitively: the priority of a live task that is on no cycle
      of waiting tasks is exactly the best base priority among itself and all tasks that
      wait for it, directly or through other owners. */
  lemma EffectivePriority(s: State, t: Tid)
    requires Inv(s) && t in s.tasks && s.tasks[t].Live() && !OnCycle(s, t)
    ensures forall c :: Chain(s, c) && c[0] == t ==> s.tasks[t].prio <= s.T(c[|c| - 1]).bPrio
    ensures exists c :: Chain(s, c) && c[0] == t && s.tasks[t].prio == s.T(c[|c| - 1]).bPrio
  {
    hide Inv, OnCycle;
    forall c | Chain(s, c) && c[0] == t ensures s.tasks[t].prio <= s.T(c[|c| - 1]).bPrio {
      ChainBound(s, c);
    }
    assert Chain(s, [t]);
    var c := Attained(s, t, [t]);
  }

  /** The tasks of a cycle all run at one priority, which waiters of theirs may have had. */
  lemma CycleEven(s: State, t: Tid, c: seq<Tid>, i: nat)
    requires Inv(s) && Cycle(s, t, c) && i < |c|
    ensures s.T(c[i]).prio == s.T(t).prio
  {
    hide Inv, WaitsFor;
    var d, e := c[..i + 1], c[i..];
    assert Chain(s, d) by {
      forall j | 0 <= j < |d| - 1 ensures WaitsFor(s, d[j + 1], d[j]) { assert WaitsFor(s, c[j + 1], c[j]); }
    }
    assert Chain(s, e) by {
      forall j | 0 <= j < |e| - 1 ensures WaitsFor(s, e[j + 1], e[j]) { assert WaitsFor(s, c[i + j + 1], c[i + j]); }
    }
    ChainBound(s, d);
    ChainBound(s, e);
  }

  /** Along a chain rank goes down. */
  lemma {:induction false} RankFalls(s: State, rank: map<Tid, nat>, c: seq<Tid>, n: nat)
    requires Acyclic(s, rank) && Chain(s, c) && 0 < n < |c|
    ensures c[0] in rank && c[n] in rank && rank[c[n]] < rank[c[0]]
  {
    assert WaitsFor(s, c[n - 1 + 1], c[n - 1]);
    if n > 1 { RankFalls(s, rank, c, n - 1); }
  }

  /** Without deadlock no task is on a cycle. */
  lemma NoneOnCycle(s: State, rank: map<Tid, nat>, t: Tid)
    requires Acyclic(s, rank)
    ensures !OnCycle(s, t)
  {
    forall c ensures !Cycle(s, t, c) {
      if Chain(s, c) && |c| >= 2 { RankFalls(s, rank, c, |c| - 1); }
    }
  }

  /** While the scheduler is free, the running task is at least as urgent as
      every ready task and as every task stuck behind a ready one. */
  lemma RunningIsBest(s: State, c: seq<Tid>)
    requires Inv(s) && s.nesting == 0 && s.schedLock == 0
    requires Chain(s, c) && s.tasks[c[0]].state == Rdy
    ensures s.T(s.active).state == Rdy && s.T(s.active).prio <= s.tasks[c[|c| - 1]].prio
  {
    ChainBound(s, c);
    RunnerBest(s, c[0]);
  }

  lemma RunnerBest(s: State, r: Tid)
    requires Inv(s) && s.nesting == 0 && s.schedLock == 0 && r in s.tasks && s.tasks[r].state == Rdy
    ensures s.T(s.active).state == Rdy && s.T(s.active).prio <= s.tasks[r].prio
  {
    hide WaitsOk, SortedOk, OwnsOk, TicksOk, PiOk, NoneWaits;
    PreferredReady(s);
    assert ListOk(s, s.tasks[r].prio, None);
    assert s.tasks[r].prio in s.bits;
  }

  lemma OwnedHere(s: State, m: Oid)
    requires Base(s, None) && m in s.objs && s.objs[m].kind == Mutex && s.objs[m].owner.Some?
    ensures var t := s.objs[m].owner.value; t in s.tasks && m in s.tasks[t].mutexes
  {
    hide WaitsOk, SortedOk, ReadyOk, TicksOk, TasksOk, LinksOk, HoldsOk;
    assert MutexOk(s, m, false);
  }

  /** Who gets a released mutex: a waiter no other waiter is more urgent than. */
  lemma UnlockSuccessor(s: State, m: Oid)
    requires Inv(s) && s.nesting == 0 && m in s.objs && s.objs[m].kind == Mutex
    requires s.objs[m].owner == Some(s.active) && s.objs[m].nested == 1 && s.objs[m].waiters != []
    ensures
      var s1, q := MutexUnlock(s, m).0, s.objs[m].waiters;
      && s1.O(m).owner == Some(q[0])
      && (forall w :: w in q ==> s.T(q[0]).prio <= s.T(w).prio)
      && s1.O(m).waiters == q[1..] && s1.O(m).nested == 1
      && (s.T(q[0]).state == Pend ==> s1.T(q[0]).state == Rdy)
      && m !in s1.T(s.active).mutexes && m in s1.T(q[0]).mutexes
  {
    hide Base, PiOk, NoneWaits, Relook, Remove, Steady, HandOver, Released, Drop, OwnsOk, WaitsOk, TicksOk, ActiveOk;
    var t := s.active;
    RunnerFacts(s);
    OwnedHere(s, m);
    WaiterFacts(s, m, None);
    var s1 := Relook(Drop(s.PutO(m, s.O(m).(nested := 0)), t, m), t);
    UnlockRelease(s, m, t);
    HandedTo(s1, m, t);
  }

  lemma HandedTo(s: State, m: Oid, t: Tid)
    requires Released(s, m) && s.objs[m].owner == Some(t) && s.objs[m].waiters != [] && t in s.tasks
    ensures
      var s1, q := HandOver(s, m, 1), s.objs[m].waiters;
      && s1.O(m).owner == Some(q[0]) && s1.O(m).waiters == q[1..] && s1.O(m).nested == 1
      && (s.T(q[0]).state == Pend ==> s1.T(q[0]).state == Rdy)
      && s1.T(t) == s.T(t) && m in s1.T(q[0]).mutexes
      && (s.T(t).Live() ==> m !in s1.T(t).mutexes)
  {
    hide Base, Remove, Wakeup;
    var q := s.objs[m].waiters;
    WaiterFacts(s, m, Some(m));
    WakeupShape(s, q[0], BlkFinish);
    NoDupWaiters(s, m);
    RemoveHead(q);
    assert q[0] in q;
  }
}
