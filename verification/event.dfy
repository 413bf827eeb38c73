/** Event flag groups: tasks wait for all or any of some flags. */
module EventSpec {
  /** A flag word, as the set of its bits. */
  type Flags = set<nat>

  /** RHINO_OR, RHINO_OR_CLEAR, RHINO_AND, RHINO_AND_CLEAR; anything else is refused. */
  predicate LegalGet(opt: nat) { opt <= 3 }
  predicate LegalSet(opt: nat) { opt == 0 || opt == 2 }
  predicate AndMask(opt: nat) { opt == 2 || opt == 3 }
  predicate ClearMask(opt: nat) { opt == 1 || opt == 3 }

  /** A task waiting for flags in the manner of opt. */
  datatype Waiter = Waiter(id: nat, opt: nat, flags: Flags)

  /** A wakeup, with the flags the task is told. */
  datatype Wakeup = Wakeup(id: nat, told: Flags)

  datatype State = State(flags: Flags, waiters: seq<Waiter>, woken: seq<Wakeup>)

  datatype Result = Ok | NoThisOpt | NoPendWait | SchedDisable | Blocked

  predicate Met(cur: Flags, opt: nat, flags: Flags) {
    if AndMask(opt) then flags <= cur else flags * cur != {}
  }

  function Cleared(cur: Flags, opt: nat, flags: Flags): Flags {
    if ClearMask(opt) then cur - flags else cur
  }

  /** `krhino_event_get`; a task that blocks is put at position at of the wait list. */
  function Get(s: State, w: Waiter, wait: bool, locked: bool, at: nat): (State, Result)
    requires at <= |s.waiters|
  {
    if !LegalGet(w.opt) then (s, NoThisOpt)
    else if Met(s.flags, w.opt, w.flags) then
      (s.(flags := Cleared(s.flags, w.opt, w.flags), woken := s.woken + [Wakeup(w.id, s.flags)]), Ok)
    else if !wait then (s, NoPendWait)
    else if locked then (s, SchedDisable)
    else (s.(waiters := s.waiters[..at] + [w] + s.waiters[at..]), Blocked)
  }

  /** The waiters whose condition the flags do not meet. */
  function Unmet(cur: Flags, q: seq<Waiter>): seq<Waiter> {
    if q == [] then []
    else if Met(cur, q[0].opt, q[0].flags) then Unmet(cur, q[1..])
    else [q[0]] + Unmet(cur, q[1..])
  }

  /** Those whose condition is met, each told the flags. */
  function MetBy(cur: Flags, q: seq<Waiter>): seq<Wakeup> {
    if q == [] then []
    else if Met(cur, q[0].opt, q[0].flags) then [Wakeup(q[0].id, cur)] + MetBy(cur, q[1..])
    else MetBy(cur, q[1..])
  }

  /** What the tasks woken clear. */
  function AllCleared(live: Flags, cur: Flags, q: seq<Waiter>): Flags {
    if q == [] then live
    else AllCleared(if Met(cur, q[0].opt, q[0].flags) then Cleared(live, q[0].opt, q[0].flags) else live, cur, q[1..])
  }

  /** `krhino_event_set`: with RHINO_AND flags are cleared; with RHINO_OR they are added
      and all waiters are judged by the flags as they are then. */
  function Set(s: State, flags: Flags, opt: nat): (State, Result) {
    if !LegalSet(opt) then (s, NoThisOpt)
    else if AndMask(opt) then (s.(flags := s.flags * flags), Ok)
    else
      var cur := s.flags + flags;
      (State(AllCleared(cur, cur, s.waiters), Unmet(cur, s.waiters), s.woken + MetBy(cur, s.waiters)), Ok)
  }

  /** A waiter leaves for another reason: timeout, abort or deletion. */
  function Leave(s: State, id: nat): State { s.(waiters := Without(s.waiters, id)) }

  function Without(q: seq<Waiter>, id: nat): seq<Waiter> {
    if q == [] then [] else if q[0].id == id then q[1..] else [q[0]] + Without(q[1..], id)
  }

  // ---- what the options ask for ---------------------------------------------------------

  /** 2 and 3 ask for every flag, 0 and 1 for any of them. */
  lemma MetMeans(cur: Flags, opt: nat, flags: Flags)
    ensures opt == 2 || opt == 3 ==> (Met(cur, opt, flags) <==> forall b :: b in flags ==> b in cur)
    ensures opt != 2 && opt != 3 ==> (Met(cur, opt, flags) <==> exists b :: b in flags && b in cur)
  {
    if exists b :: b in flags && b in cur {
      var b :| b in flags && b in cur;
      assert b in flags * cur;
    }
    if flags * cur != {} { var b :| b in flags * cur; }
  }

  /** A task gets its flags at once exactly if the group holds all of them, with
      RHINO_AND, or one of them, with RHINO_OR. It is then told what the group held, and
      takes its flags away exactly if it asked to; otherwise nothing has changed, but for
      the task itself if it waits. */
  lemma GetIs(s: State, w: Waiter, wait: bool, locked: bool, at: nat)
    requires at <= |s.waiters|
    ensures var (s1, r) := Get(s, w, wait, locked, at);
      && (r == NoThisOpt <==> w.opt > 3)
      && (w.opt == 2 || w.opt == 3 ==> (r == Ok <==> forall b :: b in w.flags ==> b in s.flags))
      && (w.opt == 0 || w.opt == 1 ==> (r == Ok <==> exists b :: b in w.flags && b in s.flags))
      && (r == NoPendWait ==> !wait) && (r == SchedDisable ==> wait && locked) && (r == Blocked ==> wait && !locked)
      && (r == Ok ==> s1.waiters == s.waiters && s1.woken == s.woken + [Wakeup(w.id, s.flags)])
      && (r == Ok ==> forall b :: b in s1.flags <==> b in s.flags && ((w.opt == 1 || w.opt == 3) ==> b !in w.flags))
      && (r == Blocked ==> s1 == s.(waiters := s.waiters[..at] + [w] + s.waiters[at..]))
      && (r != Ok && r != Blocked ==> s1 == s)
  {
    hide Met;
    MetMeans(s.flags, w.opt, w.flags);
  }

  /** A task woken has asked to clear b. */
  ghost predicate TakenAway(s: State, s1: State, b: nat) {
    exists w :: w in s.waiters && w !in s1.waiters && (w.opt == 1 || w.opt == 3) && b in w.flags
  }

  /** With RHINO_AND the flags not given are cleared; with RHINO_OR those given are there
      unless a task woken has asked to clear them. */
  lemma SetIs(s: State, flags: Flags, opt: nat)
    ensures var (s1, r) := Set(s, flags, opt);
      && (r == Ok <==> opt == 0 || opt == 2) && (r != Ok ==> r == NoThisOpt && s1 == s)
      && (opt == 2 ==> s1.waiters == s.waiters && s1.woken == s.woken && forall b :: b in s1.flags <==> b in s.flags && b in flags)
      && (opt == 0 ==> forall b :: b in s1.flags <==> (b in s.flags || b in flags) && !TakenAway(s, s1, b))
  {
    if opt == 0 {
      var cur := s.flags + flags;
      forall w | w in s.waiters ensures w !in Unmet(cur, s.waiters) <==> Met(cur, w.opt, w.flags) { UnmetAre(cur, s.waiters, w); }
      forall b ensures b in AllCleared(cur, cur, s.waiters) <==> b in cur && forall w :: w in s.waiters && Met(cur, w.opt, w.flags) && ClearMask(w.opt) ==> b !in w.flags {
        FlagSurvives(cur, cur, s.waiters, b);
      }
    }
  }

  // ---- no wakeup is missed ---------------------------------------------------------------

  /** Who waits for all of some flags misses one of them; who waits for any misses all. */
  ghost predicate NoneMissed(s: State) {
    forall w :: w in s.waiters ==> w.opt <= 3 && Misses(s.flags, w)
  }

  predicate Misses(cur: Flags, w: Waiter) {
    if w.opt == 2 || w.opt == 3 then exists b :: b in w.flags && b !in cur else forall b :: b in w.flags ==> b !in cur
  }

  lemma MissesIs(cur: Flags, w: Waiter)
    ensures Misses(cur, w) <==> !Met(cur, w.opt, w.flags)
  {
    MetMeans(cur, w.opt, w.flags);
  }

  /** Fewer flags meet fewer conditions. */
  lemma MetGrows(a: Flags, b: Flags, opt: nat, flags: Flags)
    requires a <= b && Met(a, opt, flags)
    ensures Met(b, opt, flags)
  {
    if !AndMask(opt) {
      var x :| x in flags * a;
      assert x in flags * b;
    }
  }

  lemma {:induction false} AllClearedShrinks(live: Flags, cur: Flags, q: seq<Waiter>)
    requires live <= cur
    ensures AllCleared(live, cur, q) <= cur
  {
    if q != [] {
      AllClearedShrinks(if Met(cur, q[0].opt, q[0].flags) then Cleared(live, q[0].opt, q[0].flags) else live, cur, q[1..]);
    }
  }

  lemma {:induction false} UnmetAre(cur: Flags, q: seq<Waiter>, w: Waiter)
    ensures w in Unmet(cur, q) <==> w in q && !Met(cur, w.opt, w.flags)
  {
    if q != [] {
      UnmetAre(cur, q[1..], w);
      assert q == [q[0]] + q[1..];
    }
  }

  lemma {:induction false} WithoutIn(q: seq<Waiter>, id: nat, w: Waiter)
    requires w in Without(q, id)
    ensures w in q
  {
    if q != [] && q[0].id != id && w != q[0] { WithoutIn(q[1..], id, w); }
  }

  lemma LessIsNotMet(s: State, flags: Flags)
    requires NoneMissed(s) && flags <= s.flags
    ensures NoneMissed(s.(flags := flags))
  {
    forall w | w in s.waiters ensures w.opt <= 3 && Misses(flags, w) {
      MissesIs(flags, w);
      MissesIs(s.flags, w);
      if Met(flags, w.opt, w.flags) { MetGrows(flags, s.flags, w.opt, w.flags); }
    }
  }

  lemma GetMissesNone(s: State, w: Waiter, wait: bool, locked: bool, at: nat)
    requires NoneMissed(s) && at <= |s.waiters|
    ensures NoneMissed(Get(s, w, wait, locked, at).0)
  {
    MissesIs(s.flags, w);
    hide Misses;
    if LegalGet(w.opt) && Met(s.flags, w.opt, w.flags) {
      LessIsNotMet(s, Cleared(s.flags, w.opt, w.flags));
    }
  }

  /** One pass that judges all waiters by a snapshot, while the live flags are being
      cleared, leaves nobody behind whose condition holds. */
  lemma SetMissesNone(s: State, flags: Flags, opt: nat)
    requires NoneMissed(s)
    ensures NoneMissed(Set(s, flags, opt).0)
  {
    if AndMask(opt) {
      LessIsNotMet(s, s.flags * flags);
    } else if LegalSet(opt) {
      var cur := s.flags + flags;
      AllClearedShrinks(cur, cur, s.waiters);
      forall w | w in Unmet(cur, s.waiters) ensures w.opt <= 3 && Misses(cur, w) {
        UnmetAre(cur, s.waiters, w);
        MissesIs(cur, w);
      }
      LessIsNotMet(State(cur, Unmet(cur, s.waiters), s.woken), AllCleared(cur, cur, s.waiters));
    }
  }

  /** Setting flags wakes exactly the waiters for which all their flags are there then,
      with RHINO_AND, or one of them, with RHINO_OR. Every one of them is told all those
      flags, whatever was cleared before its turn, and nobody else is told anything. */
  lemma SetWakes(s: State, flags: Flags, w: Waiter)
    requires w in s.waiters
    ensures var (s1, r) := Set(s, flags, 0);
      && (w.opt == 2 || w.opt == 3 ==> (w !in s1.waiters <==> forall b :: b in w.flags ==> b in s.flags || b in flags))
      && (w.opt == 0 || w.opt == 1 ==> (w !in s1.waiters <==> exists b :: b in w.flags && (b in s.flags || b in flags)))
      && (w !in s1.waiters ==> Wakeup(w.id, s.flags + flags) in s1.woken)
      && (forall x :: x in s1.woken ==> x in s.woken || exists v :: v in s.waiters && v !in s1.waiters && x == Wakeup(v.id, s.flags + flags))
  {
    var cur := s.flags + flags;
    UnmetAre(cur, s.waiters, w);
    MetMeans(cur, w.opt, w.flags);
    if Met(cur, w.opt, w.flags) { MetByIn(cur, s.waiters, w); }
    assert (exists b :: b in w.flags && b in cur) <==> exists b :: b in w.flags && (b in s.flags || b in flags);
    forall x | x in MetBy(cur, s.waiters) ensures exists v :: v in s.waiters && v !in Unmet(cur, s.waiters) && x == Wakeup(v.id, cur) {
      var v := MetByFrom(cur, s.waiters, x);
      UnmetAre(cur, s.waiters, v);
    }
  }

  lemma {:induction false} MetByFrom(cur: Flags, q: seq<Waiter>, x: Wakeup) returns (w: Waiter)
    requires x in MetBy(cur, q)
    ensures w in q && Met(cur, w.opt, w.flags) && x == Wakeup(w.id, cur)
  {
    if Met(cur, q[0].opt, q[0].flags) && x == Wakeup(q[0].id, cur) {
      w := q[0];
    } else {
      w := MetByFrom(cur, q[1..], x);
    }
  }

  lemma {:induction false} MetByIn(cur: Flags, q: seq<Waiter>, w: Waiter)
    requires w in q && Met(cur, w.opt, w.flags)
    ensures Wakeup(w.id, cur) in MetBy(cur, q)
  {
    if q[0] != w {
      assert q == [q[0]] + q[1..];
      MetByIn(cur, q[1..], w);
    }
  }

  /** Nothing is lost or duplicated: those woken and those left are as many as before. */
  lemma {:induction false} SetSplits(cur: Flags, q: seq<Waiter>)
    ensures |MetBy(cur, q)| + |Unmet(cur, q)| == |q|
  {
    if q != [] { SetSplits(cur, q[1..]); }
  }

  /** A flag survives setting exactly if no task woken has asked to clear it. */
  lemma {:induction false} FlagSurvives(live: Flags, cur: Flags, q: seq<Waiter>, bit: nat)
    ensures bit in AllCleared(live, cur, q) <==> bit in live && forall w :: w in q && Met(cur, w.opt, w.flags) && (w.opt == 1 || w.opt == 3) ==> bit !in w.flags
  {
    if q != [] {
      var w := q[0];
      assert q == [w] + q[1..];
      FlagSurvives(if Met(cur, w.opt, w.flags) then Cleared(live, w.opt, w.flags) else live, cur, q[1..], bit);
    }
  }

  // ---- whole runs --------------------------------------------------------------------------

  datatype Op =
    | Wait(w: Waiter, wait: bool, locked: bool, at: nat)
    | Signal(flags: Flags, opt: nat)
    | GiveUp(id: nat)

  function Apply(s: State, op: Op): State {
    match op
    case Wait(w, wait, locked, at) => Get(s, w, wait, locked, if at <= |s.waiters| then at else |s.waiters|).0
    case Signal(flags, opt) => Set(s, flags, opt).0
    case GiveUp(id) => Leave(s, id)
  }

  function Run(s: State, ops: seq<Op>): State
    decreases |ops|
  {
    if ops == [] then s else Run(Apply(s, ops[0]), ops[1..])
  }

  /** In every state of every run whoever waits for all of some flags misses one of them,
      and whoever waits for any of some flags misses every one. */
  lemma RunMissesNone(flags: Flags, ops: seq<Op>, w: Waiter)
    requires w in Run(State(flags, [], []), ops).waiters
    ensures var s := Run(State(flags, [], []), ops);
      && w.opt <= 3
      && (w.opt == 2 || w.opt == 3 ==> exists b :: b in w.flags && b !in s.flags)
      && (w.opt == 0 || w.opt == 1 ==> forall b :: b in w.flags ==> b !in s.flags)
  {
    var s := Run(State(flags, [], []), ops);
    RunKeeps(State(flags, [], []), ops);
  }

  lemma {:induction false} RunKeeps(s: State, ops: seq<Op>)
    requires NoneMissed(s)
    ensures NoneMissed(Run(s, ops))
    decreases |ops|
  {
    hide NoneMissed;
    if ops != [] {
      ApplyMissesNone(s, ops[0]);
      RunKeeps(Apply(s, ops[0]), ops[1..]);
    }
  }

  lemma ApplyMissesNone(s: State, op: Op)
    requires NoneMissed(s)
    ensures NoneMissed(Apply(s, op))
  {
    hide Get, Set;
    match op
    case Wait(w, wait, locked, at) => GetMissesNone(s, w, wait, locked, if at <= |s.waiters| then at else |s.waiters|);
    case Signal(flags, opt) => SetMissesNone(s, flags, opt);
    case GiveUp(id) =>
      forall w | w in Without(s.waiters, id) ensures w in s.waiters { WithoutIn(s.waiters, id, w); }
  }
}

/** The event group as the kernel keeps it. */
module EventImpl {
  import opened EventSpec

  class Event {
    var flags: Flags
    var waiters: seq<Waiter>
    ghost var woken: seq<Wakeup>

    ghost function S(): State
      reads this
    {
      State(flags, waiters, woken)
    }

    /** `krhino_event_create` */
    constructor (flags: Flags)
      ensures S() == State(flags, [], []) && NoneMissed(S())
    {
      this.flags, waiters, woken := flags, [], [];
    }

    /** `krhino_event_get`, up to the point where the task blocks. */
    method Get(w: Waiter, wait: bool, locked: bool, at: nat) returns (r: Result, told: Flags)
      requires NoneMissed(S()) && at <= |waiters|
      modifies this
      ensures NoneMissed(S()) && (S(), r) == EventSpec.Get(old(S()), w, wait, locked, at)
      ensures r == Ok ==> told == old(flags)
      ensures w.opt == 2 || w.opt == 3 ==> (r == Ok <==> forall b :: b in w.flags ==> b in old(flags))
      ensures w.opt == 0 || w.opt == 1 ==> (r == Ok <==> exists b :: b in w.flags && b in old(flags))
    {
      GetMissesNone(S(), w, wait, locked, at);
      GetIs(S(), w, wait, locked, at);
      hide NoneMissed;
      told := {};
      if w.opt != 0 && w.opt != 1 && w.opt != 2 && w.opt != 3 { return NoThisOpt, told; }
      var status;
      if AndMask(w.opt) {
        status := w.flags <= flags;
      } else {
        status := flags * w.flags != {};
      }
      if status {
        told := flags;
        woken := woken + [Wakeup(w.id, flags)];
        if ClearMask(w.opt) { flags := flags - w.flags; }
        return Ok, told;
      }
      if !wait { return NoPendWait, told; }
      if locked { return SchedDisable, told; }
      waiters := waiters[..at] + [w] + waiters[at..];
      r := Blocked;
    }

    /** `krhino_event_set` */
    method Set(f: Flags, opt: nat) returns (r: Result)
      requires NoneMissed(S())
      modifies this
      ensures NoneMissed(S()) && (S(), r) == EventSpec.Set(old(S()), f, opt)
    {
      SetMissesNone(S(), f, opt);
      hide NoneMissed;
      if opt != 2 && opt != 0 { return NoThisOpt; }
      if AndMask(opt) {
        flags := flags * f;
        return Ok;
      }
      flags := flags + f;
      WakeAll();
      r := Ok;
    }

    /** The pass over the wait list, on a snapshot of the flags. */
    method WakeAll()
      modifies this
      ensures flags == AllCleared(old(flags), old(flags), old(waiters))
      ensures waiters == Unmet(old(flags), old(waiters)) && woken == old(woken) + MetBy(old(flags), old(waiters))
    {
      var cur := flags;
      ghost var all, before := waiters, woken;
      var left: seq<Waiter> := [];
      var iter := 0;
      Parts(cur, cur, all);
      hide Met, Cleared, AllCleared, Unmet, MetBy;
      while iter < |waiters|
        invariant 0 <= iter <= |waiters| && waiters == all
        invariant AllCleared(flags, cur, all[iter..]) == AllCleared(cur, cur, all)
        invariant left + Unmet(cur, all[iter..]) == Unmet(cur, all)
        invariant woken + MetBy(cur, all[iter..]) == before + MetBy(cur, all)
      {
        var task := waiters[iter];
        assert all[iter..][0] == task && all[iter..][1..] == all[iter + 1..];
        OneTask(flags, cur, all[iter..], left, woken);
        var status := Judge(cur, task);
        if status {
          woken := woken + [Wakeup(task.id, cur)];
          flags := Cleared(flags, task.opt, task.flags);
        } else {
          left := left + [task];
        }
        iter := iter + 1;
      }
      Parts(flags, cur, all[iter..]);
      assert left + [] == left && woken + [] == woken;
      waiters := left;
    }
  }

  /** A task's condition, judged by a snapshot. */
  method Judge(cur: Flags, task: Waiter) returns (status: bool)
    ensures status == Met(cur, task.opt, task.flags)
    ensures task.opt == 2 || task.opt == 3 ==> (status <==> forall b :: b in task.flags ==> b in cur)
    ensures task.opt == 0 || task.opt == 1 ==> (status <==> exists b :: b in task.flags && b in cur)
  {
    MetMeans(cur, task.opt, task.flags);
    if AndMask(task.opt) {
      status := task.flags <= cur;
    } else {
      status := cur * task.flags != {};
    }
  }

  /** What one turn of the pass does. */
  lemma OneTask(live: Flags, cur: Flags, q: seq<Waiter>, left: seq<Waiter>, woken: seq<Wakeup>)
    requires q != []
    ensures var w := q[0];
      var met := Met(cur, w.opt, w.flags);
      && AllCleared(live, cur, q) == AllCleared(if met then Cleared(live, w.opt, w.flags) else live, cur, q[1..])
      && left + Unmet(cur, q) == (if met then left else left + [w]) + Unmet(cur, q[1..])
      && woken + MetBy(cur, q) == (if met then woken + [Wakeup(w.id, cur)] else woken) + MetBy(cur, q[1..])
  {
    var w := q[0];
    assert left + ([w] + Unmet(cur, q[1..])) == left + [w] + Unmet(cur, q[1..]);
    assert woken + ([Wakeup(w.id, cur)] + MetBy(cur, q[1..])) == woken + [Wakeup(w.id, cur)] + MetBy(cur, q[1..]);
  }

  lemma Parts(live: Flags, cur: Flags, q: seq<Waiter>)
    ensures q[0..] == q
    ensures q == [] ==> AllCleared(live, cur, q) == live && Unmet(cur, q) == [] && MetBy(cur, q) == []
  {
  }
}
