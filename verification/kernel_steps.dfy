/** The atomic steps of the kernel: what one critical section of each API
    routine does to the state. Each function follows the branches of the C code. */
module KernelSteps {
  import opened Options
  import opened Lists
  import opened KernelState

  const NO_WAIT: nat := 0
  /** `tick_t` is 64 bits wide; RHINO_WAIT_FOREVER is its largest value. */
  const TICK_SPAN: nat := 0x1_0000_0000_0000_0000
  const WAIT_FOREVER: nat := TICK_SPAN - 1
  const HALF_SPAN: nat := 0x8000_0000_0000_0000
  const NESTED_MAX: nat := 0xFFFF_FFFF
  const SUSPEND_MAX: nat := 255
  const LOCK_MAX: nat := 200

  datatype Status =
    | Success | Blocked
    | KobjTypeErr | MutexOwnerNested | MutexNestedOvf | NoPendWait | SchedDisabled
    | NotReleasedByOwner | NotCalledByIntrpt | InvTaskState | PriChgNotAllowed
    | SuspendNotAllowed | SuspendedCountOvf | TaskNotSuspended | DelNotAllowed | InvParam
    | SchedLockOvf | SchedAlreadyEnabled

  // ---- tick list -----------------------------------------------------------

  /** Ticks until t is due, in `tick_t` arithmetic. */
  function Remaining(s: State, t: Tid): (r: nat)
    ensures r < TICK_SPAN
  {
    (s.T(t).tickMatch - s.now) % TICK_SPAN
  }

  function InsertByTick(s: State, q: seq<Tid>, t: Tid, val: nat): (r: seq<Tid>)
    ensures forall y :: y in r <==> y in q || y == t
    ensures NoDup(q) && t !in q ==> NoDup(r)
    ensures |r| == |q| + 1
    ensures r[0] == if q == [] || Remaining(s, q[0]) > val then t else q[0]
  {
    if q == [] then [t]
    else if Remaining(s, q[0]) > val then
      NoDupTail([t] + q); assert ([t] + q)[1..] == q;
      [t] + q
    else
      var r := InsertByTick(s, q[1..], t, val);
      assert q == [q[0]] + q[1..];
      NoDupTail(q); NoDupTail([q[0]] + r); assert ([q[0]] + r)[1..] == r;
      [q[0]] + r
  }

  function TickInsert(s: State, t: Tid, time: nat): State {
    if time == 0 then s
    else
      s.PutT(t, s.T(t).(tickMatch := (s.now + time) % TICK_SPAN, ticking := true))
       .(ticks := InsertByTick(s, s.ticks, t, time))
  }

  function TickRm(s: State, t: Tid): State {
    if s.T(t).ticking then s.PutT(t, s.T(t).(ticking := false)).(ticks := Remove(s.ticks, t)) else s
  }

  // ---- blocking and waking -------------------------------------------------

  /** `pend_to_blk_obj`. */
  function Block(s: State, o: Oid, t: Tid, ticks: nat): State {
    var s1 := s.PutT(t, s.T(t).(blkObj := Some(o)));
    var s2 := if ticks != WAIT_FOREVER then TickInsert(s1, t, ticks) else s1;
    var s3 := ReadyRm(s2.PutT(t, s2.T(t).(state := Pend)), t);
    var b := s3.O(o);
    s3.PutO(o, b.(waiters := if b.policy == Fifo then b.waiters + [t] else InsertByPrio(s3, b.waiters, t)))
  }

  /** Taking t off its wait list; `blk_obj` still names the object. */
  function Unpend(s: State, t: Tid): State {
    match s.T(t).blkObj
    case None => s
    case Some(o) => s.PutO(o, s.O(o).(waiters := Remove(s.O(o).waiters, t)))
  }

  /** Ends the wait of t: off the wait list and the tick list, ready or suspended. */
  function Unblock(s: State, t: Tid, why: BlkState, toReady: bool): State {
    var s1 := TickRm(Unpend(s, t), t);
    var s2 := s1.PutT(t, s1.T(t).(state := if toReady then Rdy else Suspended, blkState := why));
    if toReady then ReadyAdd(s2, t, false) else s2
  }

  function ClearBlk(s: State, t: Tid): State { s.PutT(t, s.T(t).(blkObj := None)) }

  /** `pend_task_wakeup` (why = BlkFinish) and `pend_task_rm` (why = BlkDel). */
  function Wakeup(s: State, t: Tid, why: BlkState): State {
    ClearBlk(Unblock(s, t, why, s.T(t).state == Pend), t)
  }

  function WakeAll(s: State, q: seq<Tid>, why: BlkState): State
    decreases |q|
  {
    if q == [] then s else WakeAll(Wakeup(s, q[0], why), q[1..], why)
  }

  // ---- inheritance ---------------------------------------------------------

  /** `mutex_release(task, NULL)`. */
  function Relook(s: State, o: Tid): State {
    var q := Look(s, o);
    if q != s.T(o).prio then PriChange(s, o, q) else s
  }

  /** `mutex_task_pri_reset`. */
  function Reset(s: State, t: Tid): State {
    var k := s.T(t);
    if k.blkObj.Some? && s.O(k.blkObj.value).kind == Mutex && s.O(k.blkObj.value).owner.Some? then
      var o := s.O(k.blkObj.value).owner.value;
      if s.T(o).prio == k.prio then Relook(s, o) else s
    else s
  }

  /** What follows m in a list of mutexes. */
  function Successor(ms: seq<Oid>, m: Oid): (r: Option<Oid>)
    ensures r.Some? ==> r.value in ms
    ensures NoDup(ms) ==> r != Some(m)
  {
    if ms == [] then None
    else if ms[0] == m then if |ms| == 1 then None else Some(ms[1])
    else
      assert ms == [ms[0]] + ms[1..];
      NoDupTail(ms);
      Successor(ms[1..], m)
  }

  /** The splice of `mutex_pri_look(task, mutex_rel)`. */
  function Splice(s: State, t: Tid, m: Oid): State {
    s.PutT(t, s.T(t).(mutexes := Remove(s.T(t).mutexes, m)))
  }

  /** m leaves the list of t and still points to what followed it there. */
  function Drop(s: State, t: Tid, m: Oid): State {
    Splice(s.PutO(m, s.O(m).(next := Successor(s.T(t).mutexes, m))), t, m)
  }

  function Take(s: State, m: Oid, t: Tid, nested: nat): State {
    s.PutO(m, s.O(m).(owner := Some(t), nested := nested)).PutT(t, s.T(t).(mutexes := [m] + s.T(t).mutexes))
  }

  /** A mutex its owner has let go of: the first waiter gets it. */
  function HandOver(s: State, m: Oid, nested: nat): State {
    var q := s.O(m).waiters;
    if q == [] then s.PutO(m, s.O(m).(owner := None))
    else Take(Wakeup(s, q[0], BlkFinish), m, q[0], nested)
  }

  // ---- scheduling ----------------------------------------------------------

  /** `preferred_cpu_ready_task_get` on one CPU. */
  function Preferred(s: State): Tid {
    if s.highest < |s.ready| && s.ready[s.highest] != [] then s.ready[s.highest][0] else s.active
  }

  /** `core_sched`. */
  function CoreSched(s: State): State {
    if s.nesting > 0 || s.schedLock > 0 then s else s.(active := Preferred(s))
  }

  /** `ready_list_head_to_tail`. */
  function Rotate(s: State, p: nat): State {
    if p < |s.ready| && s.ready[p] != [] then
      s.(ready := s.ready[p := s.ready[p][1..] + [s.ready[p][0]]])
    else s
  }

  // ---- API routines --------------------------------------------------------

  function MutexLock(s: State, m: Oid, ticks: nat): (State, Status) {
    var b := s.O(m);
    if s.nesting > 0 then (s, NotCalledByIntrpt)
    else if b.kind != Mutex then (s, KobjTypeErr)
    else if b.owner == Some(s.active) then
      if b.nested == NESTED_MAX then (s, MutexNestedOvf)
      else (s.PutO(m, b.(nested := b.nested + 1)), MutexOwnerNested)
    else match b.owner
      case None => (Take(s, m, s.active, 1), Success)
      case Some(o) =>
        if ticks == NO_WAIT then (s, NoPendWait)
        else if s.schedLock > 0 then (s, SchedDisabled)
        else
          var p := s.T(s.active).prio;
          var s1 := if p < s.T(o).prio then PriChange(s, o, p) else s;
          (CoreSched(Block(s1, m, s.active, ticks)), Blocked)
  }

  function MutexUnlock(s: State, m: Oid): (State, Status) {
    var b := s.O(m);
    if s.nesting > 0 then (s, NotCalledByIntrpt)
    else if b.kind != Mutex then (s, KobjTypeErr)
    else if b.owner != Some(s.active) then (s, NotReleasedByOwner)
    else
      var n := (b.nested - 1) % (NESTED_MAX + 1);
      if n > 0 then (s.PutO(m, b.(nested := n)), MutexOwnerNested) else
      var s1 := Relook(Drop(s.PutO(m, b.(nested := 0)), s.active, m), s.active);
      var s2 := HandOver(s1, m, 1);
      (if s1.O(m).waiters == [] then s2 else CoreSched(s2), Success)
  }

  function MutexDel(s: State, m: Oid): (State, Status) {
    if s.nesting > 0 then (s, NotCalledByIntrpt)
    else if s.O(m).kind != Mutex then (s, KobjTypeErr)
    else
      var s1 := s.PutO(m, s.O(m).(kind := NoKind));
      var s2 := match s.O(m).owner
                case None => s1
                case Some(o) => Relook(Drop(s1, o, m), o);
      (CoreSched(WakeAll(s2, s2.O(m).waiters, BlkDel)), Success)
  }

  function TaskPriChange(s: State, t: Tid, pri: nat): (State, Status) {
    if s.T(t).prio >= IDLE_PRI || pri >= IDLE_PRI then (s, PriChgNotAllowed)
    else if !s.T(t).Live() then (s, InvTaskState)
    else if s.nesting > 0 then (s, NotCalledByIntrpt)
    else
      var limit := MinFirst(s, s.T(t).mutexes, pri);
      (CoreSched(PriChange(s.PutT(t, s.T(t).(bPrio := pri)), t, limit)), Success)
  }

  function TaskSuspend(s: State, t: Tid): (State, Status) {
    var k := s.T(t);
    if k.prio == IDLE_PRI then (s, SuspendNotAllowed)
    else if t == s.active && s.schedLock > 0 then (s, SchedDisabled)
    else match k.state
      case Rdy => (CoreSched(ReadyRm(s.PutT(t, k.(suspends := 1, state := Suspended)), t)), Success)
      case Sleep => (CoreSched(s.PutT(t, k.(suspends := 1, state := SleepSuspended))), Success)
      case Pend => (CoreSched(s.PutT(t, k.(suspends := 1, state := PendSuspended))), Success)
      case Suspended | SleepSuspended | PendSuspended =>
        if k.suspends == SUSPEND_MAX then (s, SuspendedCountOvf)
        else (CoreSched(s.PutT(t, k.(suspends := k.suspends + 1))), Success)
      case Deleted => (s, InvTaskState)
  }

  /** A suspended task with one suspension less. */
  function Resumed(s: State, t: Tid): State {
    var k := s.T(t);
    var n := (k.suspends - 1) % (SUSPEND_MAX + 1);
    if n > 0 then s.PutT(t, k.(suspends := n))
    else if k.state == Suspended then ReadyAdd(s.PutT(t, k.(suspends := 0, state := Rdy)), t, false)
    else s.PutT(t, k.(suspends := 0, state := if k.state == SleepSuspended then Sleep else Pend))
  }

  function TaskResume(s: State, t: Tid): (State, Status) {
    match s.T(t).state
    case Rdy | Sleep | Pend => (s, TaskNotSuspended)
    case Deleted => (s, InvTaskState)
    case Suspended | SleepSuspended | PendSuspended => (CoreSched(Resumed(s, t)), Success)
  }

  function TaskSleep(s: State, ticks: nat): (State, Status) {
    if ticks == 0 then (s, InvParam)
    else if s.nesting > 0 then (s, NotCalledByIntrpt)
    else if s.schedLock > 0 then (s, SchedDisabled)
    else
      var s1 := TickInsert(s.PutT(s.active, s.T(s.active).(state := Sleep)), s.active, ticks);
      (CoreSched(ReadyRm(s1, s.active)), Blocked)
  }

  function TaskYield(s: State): (State, Status) {
    (CoreSched(Rotate(s, s.T(s.active).prio)), Success)
  }

  function TaskWaitAbort(s: State, t: Tid): (State, Status) {
    var k := s.T(t);
    if s.nesting > 0 then (s, NotCalledByIntrpt)
    else match k.state
      case Rdy => (CoreSched(s), Success)
      case Suspended => (CoreSched(ReadyAdd(s.PutT(t, k.(state := Rdy)), t, false)), Success)
      case Sleep | SleepSuspended =>
        var s1 := TickRm(s, t);
        (CoreSched(ReadyAdd(s1.PutT(t, s1.T(t).(state := Rdy, blkState := BlkAbort)), t, false)), Success)
      case Pend | PendSuspended =>
        (CoreSched(ClearBlk(Reset(Unblock(s, t, BlkAbort, true), t), t)), Success)
      case Deleted => (s, InvTaskState)
  }

  /** `task_mutex_free`: every held mutex goes to its first waiter. */
  function FreeMutexes(s: State, t: Tid, ms: seq<Oid>): State
    decreases |ms|
  {
    if ms == [] then s
    else FreeMutexes(HandOver(Drop(s, t, ms[0]), ms[0], s.O(ms[0]).nested), t, ms[1..])
  }

  /** t leaves every list and is marked K_DELETED. */
  function Depart(s: State, t: Tid): State {
    var s1 := match s.T(t).state
              case Rdy => ReadyRm(s, t)
              case Sleep | SleepSuspended => TickRm(s, t)
              case Pend | PendSuspended => Unpend(TickRm(s, t), t)
              case Suspended | Deleted => s;
    s1.PutT(t, s1.T(t).(state := Deleted))
  }

  /** The state change of `krhino_task_del` once the mutexes are freed. */
  function Bury(s: State, t: Tid): State {
    if s.T(t).Waiting() then Reset(Depart(s, t), t) else Depart(s, t)
  }

  /** Of the list of a deleted task only the pointer to its first mutex is left. */
  function Epitaph(s: State, t: Tid, ms: seq<Oid>): State {
    s.PutT(t, s.T(t).(mutexes := if ms == [] then [] else [ms[0]]))
  }

  /** In nobody's list of held mutexes. */
  predicate Loose(b: Obj) { b.kind != Mutex || b.owner.None? }

  /** m is in the list of the task that owns it. */
  predicate Held(s: State, m: Oid) {
    !Loose(s.O(m)) && m in s.T(s.O(m).owner.value).mutexes
  }

  /** The `mutex_list` of mutex m. */
  function Next(s: State, m: Oid): Option<Oid> {
    if Held(s, m) then Successor(s.T(s.O(m).owner.value).mutexes, m) else s.O(m).next
  }

  /** The mutexes met from m on. Links never lead back to a mutex in seen: see
      `KernelDeletion.WalkEnds`. */
  function Walk(s: State, m: Oid, seen: set<Oid>): seq<Oid>
    decreases s.objs.Keys - seen
  {
    if m !in s.objs || m in seen then []
    else [m] + match Next(s, m) case None => [] case Some(n) => Walk(s, n, seen + {m})
  }

  /** The mutexes that `task_mutex_free` meets for a task deleted before. */
  function StaleList(s: State, t: Tid): seq<Oid> {
    if s.T(t).mutexes == [] then [] else Walk(s, s.T(t).mutexes[0], {})
  }

  /** ms up to and with m, and what follows. */
  function Through(ms: seq<Oid>, m: Oid): seq<Oid> {
    if ms == [] then [] else if ms[0] == m then [m] else [ms[0]] + Through(ms[1..], m)
  }

  function After(ms: seq<Oid>, m: Oid): (r: seq<Oid>)
    ensures forall x :: x in r ==> x in ms
  {
    if ms == [] then [] else if ms[0] == m then ms[1..] else After(ms[1..], m)
  }

  /** In the list of its owner, what followed m gives way to the list of the task that
      is about to get m; the links of what is cut off stay. */
  function Cut(s: State, m: Oid): State {
    var b := s.O(m);
    if !Held(s, m) || b.waiters == [] then s
    else
      var u := b.owner.value;
      var ms := s.T(u).mutexes;
      s.(objs := map o | o in s.objs :: if o in After(ms, m) then s.objs[o].(next := Successor(ms, o)) else s.objs[o])
       .PutT(u, s.T(u).(mutexes := Through(ms, m) + s.T(b.waiters[0]).mutexes))
  }

  /** The lists as they are when m goes to its first waiter, m keeping its link. */
  function Part(s: State, m: Oid): State {
    Cut(s, m).PutO(m, s.O(m).(next := Next(s, m)))
  }

  /** One turn of `task_mutex_free` with a stale pointer: m is freed or handed on
      whoever owns it. */
  function GiveAway(s: State, m: Oid): State {
    HandOver(Part(s, m), m, s.O(m).nested)
  }

  function FreeStale(s: State, ms: seq<Oid>): State
    decreases |ms|
  {
    if ms == [] then s else FreeStale(GiveAway(s, ms[0]), ms[1..])
  }

  /** Deleting t again is harmless: no mutex met is owned. */
  predicate StaleSafe(s: State, t: Tid) {
    forall m :: m in StaleList(s, t) ==> Loose(s.O(m))
  }

  /** `krhino_task_del`: the mutexes are freed before the state of the task is looked at. */
  function TaskDel(s: State, which: Option<Tid>): (State, Status) {
    var t := if which.Some? then which.value else s.active;
    var ms := s.T(t).mutexes;
    if s.nesting > 0 then (s, NotCalledByIntrpt)
    else if s.T(t).prio == IDLE_PRI then (s, DelNotAllowed)
    else if t == s.active && s.schedLock > 0 then (s, SchedDisabled)
    else if !s.T(t).Live() then (FreeStale(s, StaleList(s, t)), InvTaskState)
    else (CoreSched(Epitaph(Bury(FreeMutexes(s, t, ms), t), t, ms)), Success)
  }

  // ---- objects without inheritance (semaphores, queues, events) -------------

  function ObjPend(s: State, o: Oid, ticks: nat): (State, Status) {
    if s.nesting > 0 then (s, NotCalledByIntrpt)
    else if s.O(o).kind != Other then (s, KobjTypeErr)
    else if ticks == NO_WAIT then (s, NoPendWait)
    else if s.schedLock > 0 then (s, SchedDisabled)
    else (CoreSched(Block(s, o, s.active, ticks)), Blocked)
  }

  /** A give, send or set that releases waiter t of o. */
  function ObjWake(s: State, o: Oid, t: Tid): (State, Status) {
    if s.O(o).kind != Other || t !in s.O(o).waiters then (s, KobjTypeErr)
    else (CoreSched(Wakeup(s, t, BlkFinish)), Success)
  }

  function ObjDel(s: State, o: Oid): (State, Status) {
    if s.nesting > 0 then (s, NotCalledByIntrpt)
    else if s.O(o).kind != Other then (s, KobjTypeErr)
    else
      var s1 := s.PutO(o, s.O(o).(kind := NoKind));
      (CoreSched(WakeAll(s1, s1.O(o).waiters, BlkDel)), Success)
  }

  // ---- time ------------------------------------------------------------------

  /** `delta <= 0` in `tick_i_t` arithmetic. */
  predicate Due(s: State, t: Tid) {
    Remaining(s, t) == 0 || Remaining(s, t) >= HALF_SPAN
  }

  /** One due task of `tick_list_update`. */
  function Expire(s: State, t: Tid): State {
    var k := s.T(t);
    match k.state
    case Sleep =>
      var s1 := TickRm(s, t);
      ReadyAdd(s1.PutT(t, s1.T(t).(state := Rdy, blkState := BlkFinish)), t, false)
    case SleepSuspended =>
      var s1 := TickRm(s, t);
      s1.PutT(t, s1.T(t).(state := Suspended, blkState := BlkFinish))
    case Pend | PendSuspended =>
      ClearBlk(Reset(Unblock(s, t, BlkTimeout, k.state == Pend), t), t)
    case Rdy | Suspended | Deleted => s
  }

  /** The loop of `tick_list_update`; q is what is left of the tick list. */
  function Drain(s: State, q: seq<Tid>): State
    decreases |q|
  {
    if q == [] || !Due(s, q[0]) then s else Drain(Expire(s, q[0]), q[1..])
  }

  function TickUpdate(s: State, n: nat): State {
    var s1 := s.(now := (s.now + n) % TICK_SPAN);
    Drain(s1, s1.ticks)
  }

  /** `time_slice_update` when the slice of the running priority is used up. */
  function TimeSlice(s: State): State {
    var p := s.T(s.active).prio;
    if p < |s.ready| && |s.ready[p]| > 1 then Rotate(s, p) else s
  }

  // ---- interrupts and the scheduler lock ---------------------------------------

  function IntrptEnter(s: State): State { s.(nesting := s.nesting + 1) }

  function IntrptExit(s: State): State {
    CoreSched(s.(nesting := if s.nesting == 0 then 0 else s.nesting - 1))
  }

  function SchedDisable(s: State): (State, Status) {
    if s.nesting > 0 then (s, NotCalledByIntrpt)
    else if s.schedLock >= LOCK_MAX then (s, SchedLockOvf)
    else (s.(schedLock := s.schedLock + 1), Success)
  }

  function SchedEnable(s: State): (State, Status) {
    if s.nesting > 0 then (s, NotCalledByIntrpt)
    else if s.schedLock == 0 then (s, SchedAlreadyEnabled)
    else if s.schedLock > 1 then (s.(schedLock := s.schedLock - 1), SchedDisabled)
    else (CoreSched(s.(schedLock := 0)), Success)
  }

  // ---- runs ------------------------------------------------------------------

  datatype Call =
    | Lock(m: Oid, ticks: nat) | Unlock(m: Oid) | DelMutex(m: Oid)
    | ChangePri(t: Tid, pri: nat) | SuspendTask(t: Tid) | ResumeTask(t: Tid)
    | SleepFor(ticks: nat) | Yield | WaitAbort(t: Tid) | DelTask(which: Option<Tid>)
    | PendOn(o: Oid, ticks: nat) | Wake(o: Oid, t: Tid) | DelObj(o: Oid)
    | Tick(n: nat) | Slice | Enter | Exit | Disable | Enable

  function Exec(s: State, c: Call): State {
    match c
    case Lock(m, ticks) => MutexLock(s, m, ticks).0
    case Unlock(m) => MutexUnlock(s, m).0
    case DelMutex(m) => MutexDel(s, m).0
    case ChangePri(t, pri) => TaskPriChange(s, t, pri).0
    case SuspendTask(t) => TaskSuspend(s, t).0
    case ResumeTask(t) => TaskResume(s, t).0
    case SleepFor(ticks) => TaskSleep(s, ticks).0
    case Yield => TaskYield(s).0
    case WaitAbort(t) => TaskWaitAbort(s, t).0
    case DelTask(which) => TaskDel(s, which).0
    case PendOn(o, ticks) => ObjPend(s, o, ticks).0
    case Wake(o, t) => ObjWake(s, o, t).0
    case DelObj(o) => ObjDel(s, o).0
    case Tick(n) => TickUpdate(s, n)
    case Slice => TimeSlice(s)
    case Enter => IntrptEnter(s)
    case Exit => IntrptExit(s)
    case Disable => SchedDisable(s).0
    case Enable => SchedEnable(s).0
  }

  /** What the kernel leaves to its callers: the idle task never blocks or takes
      a mutex, time is driven by the timer interrupt, enter/exit pair up, and no
      task is deleted twice while a mutex its stale list leads to is owned. */
  predicate Enabled(s: State, c: Call) {
    match c
    case Lock(m, ticks) => s.active != IDLE || s.nesting > 0 || (s.O(m).owner.Some? && ticks == NO_WAIT)
    case SleepFor(_) => s.active != IDLE || s.nesting > 0
    case PendOn(_, ticks) => s.active != IDLE || s.nesting > 0 || ticks == NO_WAIT
    case DelTask(which) =>
      var t := if which.Some? then which.value else s.active;
      s.nesting == 0 && !s.T(t).Live() ==> StaleSafe(s, t)
    case Yield => s.nesting == 0
    case Tick(n) => s.nesting > 0 && n < HALF_SPAN
    case Slice => s.nesting > 0
    case Exit => s.nesting > 0
    case _ => true
  }
}
