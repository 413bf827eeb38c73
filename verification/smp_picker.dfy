/** Choosing the next task for one of several CPUs. */
module SmpPicker {
  type Id = nat

  /** What the choice looks at: whether some CPU is executing the task, and whether it
      may only run on one CPU. */
  datatype Task = Task(exc: bool, bound: bool, cpu: nat)

  /** Ready lists by priority, each from its current item on; the bitmap of those that
      are not empty; and its first bit. */
  datatype RunQueue = RunQueue(lists: map<nat, seq<Id>>, bits: set<nat>, highest: nat)

  function List(rq: RunQueue, p: nat): seq<Id> { if p in rq.lists then rq.lists[p] else [] }

  /** The index of the run queue is exact. */
  ghost predicate IndexOk(rq: RunQueue) {
    && (forall p: nat :: p in rq.bits <==> List(rq, p) != [])
    && rq.highest in rq.bits && (forall p :: p in rq.bits ==> rq.highest <= p)
  }

  function T(tasks: map<Id, Task>, t: Id): Task { if t in tasks then tasks[t] else Task(true, true, 0) }

  /** A task CPU cpu, now executing active, may execute next. */
  predicate Eligible(tasks: map<Id, Task>, active: Id, cpu: nat, t: Id) {
    t == active || (!T(tasks, t).exc && (!T(tasks, t).bound || T(tasks, t).cpu == cpu))
  }

  predicate NoneIn(tasks: map<Id, Task>, active: Id, cpu: nat, q: seq<Id>) {
    forall i :: 0 <= i < |q| ==> !Eligible(tasks, active, cpu, q[i])
  }

  /** t is the first eligible task of the best list that has one. */
  ghost predicate Best(rq: RunQueue, tasks: map<Id, Task>, active: Id, cpu: nat, p: nat, i: nat) {
    && i < |List(rq, p)| && Eligible(tasks, active, cpu, List(rq, p)[i])
    && NoneIn(tasks, active, cpu, List(rq, p)[..i])
    && forall q :: 0 <= q < p ==> NoneIn(tasks, active, cpu, List(rq, q))
  }

  /** t is that task. */
  ghost predicate IsBest(rq: RunQueue, tasks: map<Id, Task>, active: Id, cpu: nat, t: Id) {
    exists p: nat, i: nat :: Best(rq, tasks, active, cpu, p, i) && t == List(rq, p)[i]
  }

  /** Each CPU has an idle task of its own, bound to it and always ready: it is either
      what the CPU executes, or nobody executes it. */
  ghost predicate IdleReady(rq: RunQueue, tasks: map<Id, Task>, active: Id, cpu: nat, idle: Id, idlePri: nat) {
    && idle in List(rq, idlePri)
    && T(tasks, idle).bound && T(tasks, idle).cpu == cpu && (T(tasks, idle).exc ==> idle == active)
  }

  /** RHINO_CONFIG_PRI_MAX */
  const PRIS: nat := 62

  /** `krhino_find_first_bit` from priority p on; PRIS if there is no bit. */
  function FirstBit(bits: set<nat>, p: nat): (f: nat)
    requires p <= PRIS
    ensures p <= f <= PRIS && (f < PRIS ==> f in bits) && forall x :: p <= x < f ==> x !in bits
    decreases PRIS - p
  {
    if p == PRIS || p in bits then p else FirstBit(bits, p + 1)
  }

  /** Priorities whose lists have been searched in vain. */
  ghost predicate Searched(rq: RunQueue, tasks: map<Id, Task>, active: Id, cpu: nat, bits: set<nat>, p: nat) {
    && (forall q :: 0 <= q < p ==> NoneIn(tasks, active, cpu, List(rq, q)))
    && (forall q :: q in bits <==> q in rq.bits && q >= p)
  }

  lemma NotYet(rq: RunQueue, tasks: map<Id, Task>, active: Id, cpu: nat, idle: Id, idlePri: nat, p: nat)
    requires IdleReady(rq, tasks, active, cpu, idle, idlePri)
    requires forall q :: 0 <= q < p ==> NoneIn(tasks, active, cpu, List(rq, q))
    ensures p <= idlePri
  {
    var i :| 0 <= i < |List(rq, idlePri)| && List(rq, idlePri)[i] == idle;
    assert Eligible(tasks, active, cpu, List(rq, idlePri)[i]);
    assert idlePri < p ==> NoneIn(tasks, active, cpu, List(rq, idlePri));
  }

  /** The next list is searched after a list without eligible tasks. */
  lemma NextSearched(rq: RunQueue, tasks: map<Id, Task>, active: Id, cpu: nat, bits: set<nat>, done: nat, p: nat)
    requires IndexOk(rq) && Searched(rq, tasks, active, cpu, bits + {done}, done) && done !in bits && NoneIn(tasks, active, cpu, List(rq, done))
    requires p in bits && forall x :: 0 <= x < p ==> x !in bits
    ensures p in rq.bits && Searched(rq, tasks, active, cpu, bits, p)
  {
    assert p in bits + {done};
    forall q: nat | q < p ensures NoneIn(tasks, active, cpu, List(rq, q)) {
      if q > done {
        assert q !in bits + {done};
        assert q !in rq.bits;
      }
    }
    forall q: nat ensures q in bits <==> q in rq.bits && q >= p { assert q in bits + {done} <==> q in rq.bits && q >= done; }
  }

  /** t stands at place i of list p, and all that stand before it are executed by other CPUs
      or bound to them. */
  ghost predicate FirstFor(rq: RunQueue, tasks: map<Id, Task>, active: Id, cpu: nat, t: Id, p: nat, i: nat) {
    && i < |List(rq, p)| && List(rq, p)[i] == t
    && forall q: nat, j: nat :: j < |List(rq, q)| && (q < p || (q == p && j < i)) ==>
         var u := List(rq, q)[j]; u != active && (T(tasks, u).exc || (T(tasks, u).bound && T(tasks, u).cpu != cpu))
  }

  /** In other words: a CPU may go on with what it executes, or execute what no CPU executes
      and what is not bound to another one; of all such tasks that are ready it is given the
      first of the best priority. */
  lemma BestIs(rq: RunQueue, tasks: map<Id, Task>, active: Id, cpu: nat, t: Id)
    requires IsBest(rq, tasks, active, cpu, t)
    ensures t == active || (!T(tasks, t).exc && (T(tasks, t).bound ==> T(tasks, t).cpu == cpu))
    ensures exists p: nat, i: nat :: FirstFor(rq, tasks, active, cpu, t, p, i)
  {
    var p: nat, i: nat :| Best(rq, tasks, active, cpu, p, i) && t == List(rq, p)[i];
    forall q: nat, j: nat | j < |List(rq, q)| && (q < p || (q == p && j < i))
      ensures var u := List(rq, q)[j]; u != active && (T(tasks, u).exc || (T(tasks, u).bound && T(tasks, u).cpu != cpu))
    {
      if q == p {
        assert List(rq, p)[..i][j] == List(rq, p)[j];
      } else {
        assert NoneIn(tasks, active, cpu, List(rq, q));
      }
    }
    assert FirstFor(rq, tasks, active, cpu, t, p, i);
  }

  /** `preferred_cpu_ready_task_get` for several CPUs: thanks to the bound idle task the
      search ends, with the first task of the best list that this CPU may execute. */
  method PreferredReadyTask(rq: RunQueue, tasks: map<Id, Task>, active: Id, cpu: nat, ghost idle: Id, ghost idlePri: nat)
      returns (t: Id)
    requires IndexOk(rq) && (forall q :: q in rq.bits ==> q < PRIS)
    requires IdleReady(rq, tasks, active, cpu, idle, idlePri)
    ensures IsBest(rq, tasks, active, cpu, t)
  {
    var pri, bits, iter := rq.highest, rq.bits, 0;
    while true
      invariant pri in rq.bits && pri < PRIS && 0 <= iter < |List(rq, pri)|
      invariant Searched(rq, tasks, active, cpu, bits, pri)
      invariant NoneIn(tasks, active, cpu, List(rq, pri)[..iter])
      decreases PRIS - pri, |List(rq, pri)| - iter
    {
      t := List(rq, pri)[iter];
      if active == t {
        assert Best(rq, tasks, active, cpu, pri, iter);
        return;
      }
      var k := T(tasks, t);
      if (!k.exc && !k.bound) || (!k.exc && k.bound && k.cpu == cpu) {
        assert Best(rq, tasks, active, cpu, pri, iter);
        return;
      }
      assert List(rq, pri)[..iter + 1] == List(rq, pri)[..iter] + [t];
      if iter + 1 == |List(rq, pri)| {
        assert List(rq, pri)[..iter + 1] == List(rq, pri);
        NotYet(rq, tasks, active, cpu, idle, idlePri, pri + 1);
        assert bits == bits - {pri} + {pri};
        bits := bits - {pri};
        assert idlePri in bits;
        ghost var done := pri;
        pri := FirstBit(bits, 0);
        iter := 0;
        NextSearched(rq, tasks, active, cpu, bits, done, pri);
      } else {
        iter := iter + 1;
      }
    }
  }
}
