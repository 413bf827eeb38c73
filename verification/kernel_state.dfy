/** Kernel objects as values: task control blocks, blocking objects and the
    global lists of the Rhino kernel. */
module KernelState {
  import opened Options
  import opened Lists

  type Tid = nat
  type Oid = nat

  const PRI_MAX: nat := 62
  const IDLE_PRI: nat := PRI_MAX - 1
  /** The idle task, which is always ready. */
  const IDLE: Tid := 0

  datatype TaskState = Rdy | Pend | Suspended | PendSuspended | Sleep | SleepSuspended | Deleted
  datatype BlkState = BlkFinish | BlkAbort | BlkTimeout | BlkDel
  datatype Policy = ByPrio | Fifo
  /** Mutexes drive inheritance; every other blocking object only queues tasks. */
  datatype Kind = NoKind | Mutex | Other

  datatype Task = Task(
    state: TaskState,
    prio: nat,
    bPrio: nat,
    blkObj: Option<Oid>,
    blkState: BlkState,
    mutexes: seq<Oid>,
    suspends: nat,
    tickMatch: nat,
    ticking: bool)
  {
    predicate Waiting() { state == Pend || state == PendSuspended }
    predicate Sleeping() { state == Sleep || state == SleepSuspended }
    predicate Live() { state != Deleted }
  }

  /** next is where the `mutex_list` of a mutex points once the mutex has left its
      owner's list; in the list it is the successor there. */
  datatype Obj = Obj(kind: Kind, policy: Policy, waiters: seq<Tid>, owner: Option<Tid>, nested: nat, next: Option<Oid>)

  const NO_TASK := Task(Deleted, 0, 0, None, BlkFinish, [], 0, 0, false)
  const NO_OBJ := Obj(NoKind, ByPrio, [], None, 0, None)

  datatype State = State(
    tasks: map<Tid, Task>,
    objs: map<Oid, Obj>,
    ready: seq<seq<Tid>>,
    bits: set<nat>,
    highest: nat,
    ticks: seq<Tid>,
    now: nat,
    active: Tid,
    schedLock: nat,
    nesting: nat)
  {
    function T(t: Tid): Task { if t in tasks then tasks[t] else NO_TASK }
    function O(o: Oid): Obj { if o in objs then objs[o] else NO_OBJ }
    function PutT(t: Tid, k: Task): State { this.(tasks := tasks[t := k]) }
    function PutO(o: Oid, b: Obj): State { this.(objs := objs[o := b]) }
  }

  // ---- ready queue -------------------------------------------------------

  /** `krhino_find_first_bit`: the least set bit at or above p. */
  function LeastFrom(bits: set<nat>, p: nat): (r: nat)
    ensures p <= PRI_MAX ==> p <= r <= PRI_MAX
    ensures p <= PRI_MAX && r < PRI_MAX ==> r in bits
    ensures forall q :: p <= q < r ==> q !in bits
    decreases PRI_MAX - p
  {
    if p >= PRI_MAX || p in bits then p else LeastFrom(bits, p + 1)
  }

  function ReadyAdd(s: State, t: Tid, atHead: bool): State {
    var p := s.T(t).prio;
    if p >= |s.ready| then s
    else if s.ready[p] == [] then
      s.(ready := s.ready[p := [t]], bits := s.bits + {p},
         highest := if p < s.highest then p else s.highest)
    else
      s.(ready := s.ready[p := if atHead then [t] + s.ready[p] else s.ready[p] + [t]])
  }

  function ReadyRm(s: State, t: Tid): State {
    var p := s.T(t).prio;
    if p >= |s.ready| then s
    else if |s.ready[p]| > 1 then
      s.(ready := s.ready[p := Remove(s.ready[p], t)])
    else
      var bits := s.bits - {p};
      s.(ready := s.ready[p := []], bits := bits,
         highest := if p == s.highest then LeastFrom(bits, 0) else s.highest)
  }

  /** The ready queue is all these two touch. */
  lemma ReadyRmFrame(s: State, t: Tid)
    ensures
      var s1 := ReadyRm(s, t);
      s1 == s.(ready := s1.ready, bits := s1.bits, highest := s1.highest)
  {
  }

  lemma ReadyAddFrame(s: State, t: Tid, atHead: bool)
    ensures
      var s1 := ReadyAdd(s, t, atHead);
      s1 == s.(ready := s1.ready, bits := s1.bits, highest := s1.highest)
  {
  }

  // ---- wait lists --------------------------------------------------------

  /** `pend_list_add`: in front of the first waiter with a larger `prio` value. */
  function InsertByPrio(s: State, q: seq<Tid>, t: Tid): (r: seq<Tid>)
    ensures forall y :: y in r <==> y in q || y == t
    ensures NoDup(q) && t !in q ==> NoDup(r)
    ensures |r| == |q| + 1
    ensures r[0] == if q == [] || s.T(q[0]).prio > s.T(t).prio then t else q[0]
  {
    if q == [] then [t]
    else if s.T(q[0]).prio > s.T(t).prio then
      NoDupTail([t] + q); assert ([t] + q)[1..] == q;
      [t] + q
    else
      var r := InsertByPrio(s, q[1..], t);
      assert q == [q[0]] + q[1..];
      NoDupTail(q); NoDupTail([q[0]] + r); assert ([q[0]] + r)[1..] == r;
      [q[0]] + r
  }

  /** `pend_list_reorder`. */
  function Reorder(s: State, t: Tid): State {
    match s.T(t).blkObj
    case None => s
    case Some(o) =>
      var b := s.O(o);
      if b.policy == ByPrio then s.PutO(o, b.(waiters := InsertByPrio(s, Remove(b.waiters, t), t))) else s
  }

  // ---- inherited priority ------------------------------------------------

  /** The best of acc and the priorities of the first waiters of the mutexes ms. */
  function MinFirst(s: State, ms: seq<Oid>, acc: nat): nat
  {
    if ms == [] then acc
    else
      var w := s.O(ms[0]).waiters;
      MinFirst(s, ms[1..], if w != [] && s.T(w[0]).prio < acc then s.T(w[0]).prio else acc)
  }

  /** `mutex_pri_look(task, NULL)`: the priority t should run at. */
  function Look(s: State, t: Tid): nat {
    MinFirst(s, s.T(t).mutexes, s.T(t).bPrio)
  }

  /** One turn of the loop of `task_pri_change`, up to the choice of the next task. */
  function SetPrio(s: State, t: Tid, p: nat): State {
    var k := s.T(t);
    match k.state
    case Rdy =>
      var s1 := ReadyRm(s, t);
      ReadyAdd(s1.PutT(t, k.(prio := p)), t, t == s.active)
    case Pend | PendSuspended => Reorder(s.PutT(t, k.(prio := p)), t)
    case Sleep | Suspended | SleepSuspended => s.PutT(t, k.(prio := p))
    case Deleted => s
  }

  /** The tasks whose `prio` field satisfies a bound, as finite sets. */
  function Below(s: State, p: nat): set<Tid> { set u | u in s.tasks && s.tasks[u].prio > p }
  function UpTo(s: State, p: nat): set<Tid> { set u | u in s.tasks && s.tasks[u].prio <= p }

  lemma SetPrioFrame(s: State, t: Tid, p: nat)
    requires t in s.tasks
    ensures SetPrio(s, t, p).tasks == if s.tasks[t].Live() then s.tasks[t := s.tasks[t].(prio := p)] else s.tasks
  {
    hide ReadyAdd, ReadyRm, InsertByPrio, Remove;
    ReadyRmFrame(s, t);
    ReadyAddFrame(ReadyRm(s, t).PutT(t, s.T(t).(prio := p)), t, t == s.active);
  }

  lemma SetPrioShrinks(s: State, t: Tid, p: nat)
    requires t in s.tasks && s.tasks[t].Live()
    ensures p < s.tasks[t].prio ==> |Below(SetPrio(s, t, p), p)| < |Below(s, p)|
    ensures p > s.tasks[t].prio ==> |UpTo(SetPrio(s, t, p), s.tasks[t].prio)| < |UpTo(s, s.tasks[t].prio)|
  {
    SetPrioFrame(s, t, p);
    var s1 := SetPrio(s, t, p);
    var q := s.tasks[t].prio;
    if p < q {
      assert Below(s1, p) == Below(s, p) - {t};
      assert t in Below(s, p);
    }
    if p > q {
      assert UpTo(s1, q) == UpTo(s, q) - {t};
      assert t in UpTo(s, q);
    }
  }

  /** The owner the priority of t is passed on to, if t waits for an owned mutex. */
  function NextOwner(s: State, t: Tid): Option<Tid> {
    var k := s.T(t);
    if k.Waiting() && k.blkObj.Some? && s.O(k.blkObj.value).kind == Mutex then s.O(k.blkObj.value).owner else None
  }

  /** `task_pri_change`: t takes priority p and the owner chain follows. The
      measure needs no assumption on the wait-for graph: raising takes a task
      out of Below(p), lowering takes one out of UpTo(old), and lowering can
      turn into raising but not back. */
  function PriChange(s: State, t: Tid, p: nat): State
    decreases if p > s.T(t).prio then 1 else 0,
              if p > s.T(t).prio then |UpTo(s, s.T(t).prio)| else |Below(s, p)|
  {
    if t !in s.tasks || !s.tasks[t].Live() || s.tasks[t].prio == p then s
    else
      var s1 := SetPrio(s, t, p);
      SetPrioFrame(s, t, p);
      SetPrioShrinks(s, t, p);
      match NextOwner(s, t)
      case None => s1
      case Some(o) =>
        if s1.T(o).prio > p then PriChange(s1, o, p)
        else if s1.T(o).prio == s.tasks[t].prio then
          var q := Look(s1, o);
          if q != s1.T(o).prio then PriChange(s1, o, q) else s1
        else s1
  }
}
