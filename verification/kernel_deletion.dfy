/** Deleting a task once more. `krhino_task_del` frees the mutexes of the task before it
    looks at its state, and a deleted task keeps its pointer to a mutex. */
module KernelDeletion {
  import opened Options
  import opened Lists
  import opened KernelState
  import opened KernelSteps
  import opened KernelInvariants
  import opened KernelInheritance
  import opened KernelWaits
  import opened KernelMutexes
  import opened KernelHandOver
  import opened KernelBlock
  import opened KernelCalls
  import opened KernelTasks

  // ---- following the links -------------------------------------------------------

  lemma {:induction false} AfterNext(ms: seq<Oid>, m: Oid)
    requires NoDup(ms) && m in ms
    ensures var r := After(ms, m); NoDup(r) && m !in r && ms == Through(ms, m) + r && Through(ms, m) != [] && m in Through(ms, m)
  {
    hide NoDup;
    assert ms == [ms[0]] + ms[1..];
    NoDupTail(ms);
    if ms[0] != m { AfterNext(ms[1..], m); }
  }

  lemma {:induction false} AfterStep(ms: seq<Oid>, m: Oid)
    requires NoDup(ms) && m in ms
    ensures var r := After(ms, m); Successor(ms, m) == (if r == [] then None else Some(r[0]))
    ensures var r := After(ms, m); r != [] ==> After(ms, r[0]) == r[1..]
  {
    hide NoDup;
    assert ms == [ms[0]] + ms[1..];
    NoDupTail(ms);
    if ms[0] != m { AfterStep(ms[1..], m); }
  }

  /** The owner of m and its list. */
  lemma OwnerList(s: State, m: Oid)
    requires OwnsOk(s, None) && m in s.objs && !Loose(s.objs[m])
    ensures
      var u := s.objs[m].owner.value;
      && u in s.tasks && s.tasks[u].Live() && m in s.tasks[u].mutexes && NoDup(s.tasks[u].mutexes)
      && u !in s.objs[m].waiters
      && forall x :: x in s.tasks[u].mutexes ==> x in s.objs && !Loose(s.objs[x]) && s.objs[x].owner == Some(u)
  {
    hide LinksOk;
    assert MutexOk(s, m, false);
  }

  /** The links from x on lead through ms. */
  ghost predicate Chained(s: State, x: Option<Oid>, ms: seq<Oid>)
    decreases |ms|
  {
    match x
    case None => ms == []
    case Some(m) => ms != [] && ms[0] == m && Chained(s, Next(s, m), ms[1..])
  }

  function Head(ms: seq<Oid>): Option<Oid> { if ms == [] then None else Some(ms[0]) }

  lemma ChainedOn(s: State, m: Oid, ms: seq<Oid>)
    requires Chained(s, Next(s, m), ms)
    ensures Chained(s, Some(m), [m] + ms)
  {
    assert ([m] + ms)[1..] == ms;
  }

  lemma ChainedEnd(s: State)
    ensures Chained(s, None, [])
  {
  }

  /** From an owned mutex the links lead down the rest of its owner's list. */
  lemma {:induction false} WalkHeld(s: State, m: Oid, seen: set<Oid>)
    requires OwnsOk(s, None) && m in s.objs && !Loose(s.objs[m]) && m !in seen
    requires forall x :: x in After(s.T(s.objs[m].owner.value).mutexes, m) ==> x !in seen
    ensures var q := Walk(s, m, seen);
      q == [m] + After(s.T(s.objs[m].owner.value).mutexes, m) && Chained(s, Some(m), q)
    decreases s.objs.Keys - seen
  {
    hide OwnsOk, After, Successor, NoDup, Through, Chained;
    OwnerList(s, m);
    var ms := s.tasks[s.objs[m].owner.value].mutexes;
    AfterNext(ms, m);
    AfterStep(ms, m);
    var r := After(ms, m);
    if r != [] {
      assert r[0] in r && r[0] in ms;
      WalkHeld(s, r[0], seen + {m});
      assert r == [r[0]] + r[1..];
      ChainedOn(s, m, r);
    } else {
      ChainedOn(s, m, []) by { ChainedEnd(s); }
      assert [m] + [] == [m];
    }
  }

  lemma NextLoose(s: State, rank: map<Oid, nat>, m: Oid)
    requires LinksOk(s) && Ranked(s.objs, rank) && m in s.objs && Loose(s.objs[m]) && s.objs[m].next.Some?
    ensures var n := s.objs[m].next.value; MutexPtr(s, n) && (Loose(s.objs[n]) ==> rank[m] < rank[n])
  {
    hide Loose, MutexPtr;
    assert NextPtr(s, m) && RankUp(s.objs, rank, m);
    assert MutexPtr(s, s.objs[m].next.value);
    PtrThere(s, s.objs[m].next.value);
  }

  lemma PtrThere(s: State, m: Oid)
    requires MutexPtr(s, m)
    ensures m in s.objs
  {
  }

  /** Where the links lead: through loose mutexes pre, and then, if to an owned one,
      down the rest of its owner's list. */
  ghost predicate Leads(s: State, ms: seq<Oid>, pre: seq<Oid>, h: Option<Oid>) {
    && (forall x :: x in pre ==> MutexPtr(s, x) && Loose(s.O(x)))
    && match h
       case None => ms == pre
       case Some(m) => m in s.objs && !Loose(s.objs[m]) && ms == pre + [m] + After(s.T(s.objs[m].owner.value).mutexes, m)
  }

  /** The links end: the walk never comes back to a mutex it has seen. */
  lemma {:induction false} WalkEnds(s: State, rank: map<Oid, nat>, m: Oid, seen: set<Oid>) returns (pre: seq<Oid>, h: Option<Oid>)
    requires OwnsOk(s, None) && Ranked(s.objs, rank) && MutexPtr(s, m)
    requires forall x :: x in seen ==> x in s.objs && Loose(s.objs[x]) && (Loose(s.objs[m]) ==> rank[x] < rank[m])
    ensures var q := Walk(s, m, seen);
      Leads(s, q, pre, h) && Chained(s, Some(m), q)
    decreases s.objs.Keys - seen
  {
    if !Loose(s.objs[m]) {
      OwnerList(s, m);
      hide OwnsOk;
      WalkHeld(s, m, seen);
      pre, h := [], Some(m);
      assert [] + [m] + After(s.T(s.objs[m].owner.value).mutexes, m) == [m] + After(s.T(s.objs[m].owner.value).mutexes, m);
    } else {
      assert LinksOk(s);
      hide OwnsOk, LinksOk, Ranked, Leads, Chained;
      assert m !in seen;
      if s.objs[m].next.Some? {
        var n := s.objs[m].next.value;
        NextLoose(s, rank, m);
        var p;
        p, h := WalkEnds(s, rank, n, seen + {m});
        pre := [m] + p;
        LeadsOn(s, Walk(s, n, seen + {m}), m, p, h);
        ChainedOn(s, m, Walk(s, n, seen + {m}));
      } else {
        pre, h := [m], None;
        LeadsSingle(s, m);
        ChainedOn(s, m, []) by { ChainedEnd(s); }
        assert [m] + [] == [m];
      }
    }
  }

  lemma LeadsSingle(s: State, m: Oid)
    requires MutexPtr(s, m) && Loose(s.O(m))
    ensures Leads(s, [m], [m], None)
  {
  }

  lemma LeadsOn(s: State, ms: seq<Oid>, m: Oid, pre: seq<Oid>, h: Option<Oid>)
    requires Leads(s, ms, pre, h) && MutexPtr(s, m) && Loose(s.O(m))
    ensures Leads(s, [m] + ms, [m] + pre, h)
  {
    if h.Some? {
      assert [m] + ms == [m] + pre + [h.value] + After(s.T(s.objs[h.value].owner.value).mutexes, h.value);
    }
  }

  lemma StaleLeads(s: State, t: Tid) returns (pre: seq<Oid>, h: Option<Oid>)
    requires OwnsOk(s, None) && t in s.tasks
    ensures Leads(s, StaleList(s, t), pre, h) && Chained(s, Head(s.tasks[t].mutexes), StaleList(s, t))
  {
    if s.tasks[t].mutexes == [] {
      pre, h := [], None;
    } else {
      var m := s.tasks[t].mutexes[0];
      assert LinksOk(s) && MutexPtr(s, m);
      var rank: map<Oid, nat> :| Ranked(s.objs, rank);
      hide OwnsOk;
      pre, h := WalkEnds(s, rank, m, {});
    }
  }

  /** Safe to delete again: all the links meet is loose. */
  lemma SafeLeads(s: State, t: Tid, pre: seq<Oid>, h: Option<Oid>)
    requires Leads(s, StaleList(s, t), pre, h)
    ensures StaleSafe(s, t) <==> h == None
  {
    if h.Some? { assert h.value in StaleList(s, t) && !Loose(s.O(h.value)); }
  }

  // ---- loose mutexes -------------------------------------------------------------

  /** Deleted mutexes have no owner any more; nothing else differs. */
  ghost predicate Disowned(s: State, s1: State) {
    && s1 == s.(objs := s1.objs) && s1.objs.Keys == s.objs.Keys
    && forall o :: o in s.objs ==> s1.objs[o] == s.objs[o].(owner := s1.objs[o].owner) && (s.objs[o].kind != NoKind ==> s1.objs[o] == s.objs[o])
  }

  lemma DisownedOwns(s: State, s1: State)
    requires OwnsOk(s, None) && Disowned(s, s1)
    ensures OwnsOk(s1, None)
  {
    assert LinksOk(s1) by {
      hide LinksOk, MutexOk, NoDup;
      assert forall m :: MutexPtr(s, m) ==> MutexPtr(s1, m);
      LinksFrame(s, s1);
    }
    hide LinksOk, NoDup;
    forall m | m in s1.objs && s1.objs[m].kind == Mutex ensures MutexOk(s1, m, false) {
      assert MutexOk(s, m, false);
    }
  }

  lemma DisownedInv(s: State, s1: State)
    requires Inv(s) && Disowned(s, s1)
    ensures Inv(s1)
  {
    hide ReadyOk, OwnsOk, WaitsOk, SortedOk, TicksOk, TasksOk;
    DisownedOwns(s, s1);
    TakeLists(s, s1);
    ReadySame(s, s1);
    TasksKept(s, s1);
    PiSame(s, s1, None);
    hide PiOk;
    ActiveSame(s, s1);
  }

  lemma TasksKept(s: State, s1: State)
    requires TasksOk(s) && TicksOk(s) && s1.tasks == s.tasks && s1.ticks == s.ticks && s1.active == s.active
    ensures TasksOk(s1) && TicksOk(s1)
  {
  }

  lemma GiveAwayLoose(s: State, m: Oid)
    requires Inv(s) && MutexPtr(s, m) && Loose(s.O(m))
    ensures GiveAway(s, m) == s.PutO(m, s.O(m).(owner := None)) && Disowned(s, GiveAway(s, m))
  {
    hide ReadyOk, TicksOk, TasksOk, WaitsOk, SortedOk, PiOk, ActiveOk, LinksOk;
    if s.objs[m].kind == Mutex {
      assert MutexOk(s, m, false);
    }
  }

  lemma DisownedTrans(s: State, s1: State, s2: State)
    requires Disowned(s, s1) && Disowned(s1, s2)
    ensures Disowned(s, s2)
  {
  }

  lemma {:induction false} FreeLoose(s: State, pre: seq<Oid>, more: seq<Oid>)
    requires Inv(s) && forall x :: x in pre ==> MutexPtr(s, x) && Loose(s.O(x))
    ensures FreeStale(s, pre + more) == FreeStale(FreeStale(s, pre), more)
    ensures Disowned(s, FreeStale(s, pre)) && Inv(FreeStale(s, pre))
    decreases |pre|
  {
    hide Inv, GiveAway;
    if pre == [] {
      assert pre + more == more;
    } else {
      var s1 := GiveAway(s, pre[0]);
      GiveAwayLoose(s, pre[0]);
      DisownedInv(s, s1);
      assert (pre + more)[0] == pre[0] && (pre + more)[1..] == pre[1..] + more;
      LooseKept(s, s1);
      FreeLoose(s1, pre[1..], more);
      DisownedTrans(s, s1, FreeStale(s1, pre[1..]));
    }
  }

  lemma LooseKept(s: State, s1: State)
    requires Disowned(s, s1)
    ensures forall x :: MutexPtr(s, x) && Loose(s.O(x)) ==> MutexPtr(s1, x) && Loose(s1.O(x))
  {
  }

  // ---- an owned mutex --------------------------------------------------------------

  /** h is in the list of u, in its part p, but u does not own it. */
  ghost predicate Torn(s: State, u: Tid, p: seq<Oid>, h: Oid) {
    && u in s.tasks && s.tasks[u].Live() && p <= s.tasks[u].mutexes && h in p && h in s.objs && s.objs[h].owner != Some(u)
  }

  lemma TornBreaks(s: State, u: Tid, p: seq<Oid>, h: Oid)
    requires Torn(s, u, p, h)
    ensures !OwnsOk(s, None)
  {
    assert h in s.tasks[u].mutexes;
  }

  lemma {:induction false} ThroughPrefix(ms: seq<Oid>, p: seq<Oid>, m: Oid)
    requires p <= ms && m !in p
    ensures p <= Through(ms, m)
  {
    if p != [] {
      assert p[0] == ms[0];
      ThroughPrefix(ms[1..], p[1..], m);
      assert p == [p[0]] + p[1..];
    }
  }

  /** What waking t leaves as it was. */
  lemma WakeupKeeps(s: State, t: Tid)
    ensures
      var s1 := Wakeup(s, t, BlkFinish);
      && (forall o :: o in s.objs ==> o in s1.objs && s1.objs[o].owner == s.objs[o].owner)
      && (forall u :: u in s.tasks ==> u in s1.tasks && s1.tasks[u].mutexes == s.tasks[u].mutexes && (s.tasks[u].Live() ==> s1.tasks[u].Live()))
      && s1.T(t).mutexes == s.T(t).mutexes
  {
    hide ReadyAdd, Remove, Unpend, TickRm;
    UnpendKeeps(s, t);
    var s1 := TickRm(Unpend(s, t), t);
    ReadyAddFrame(s1.PutT(t, s1.T(t).(state := Rdy, blkState := BlkFinish)), t, false);
  }

  lemma UnpendKeeps(s: State, t: Tid)
    ensures
      var s1 := TickRm(Unpend(s, t), t);
      && (forall o :: o in s.objs ==> o in s1.objs && s1.objs[o].owner == s.objs[o].owner)
      && (forall u :: u in s.tasks ==> u in s1.tasks && s1.tasks[u] == s.tasks[u].(ticking := s1.tasks[u].ticking))
      && s1.T(t).mutexes == s.T(t).mutexes
  {
    hide Remove;
  }

  lemma HandOverKeeps(s: State, m: Oid, u: Tid, p: seq<Oid>, h: Oid)
    requires Torn(s, u, p, h) && m != h
    ensures Torn(HandOver(s, m, s.O(m).nested), u, (if s.O(m).waiters != [] && s.O(m).waiters[0] == u then [m] else []) + p, h)
  {
    hide Wakeup;
    var q := s.O(m).waiters;
    if q == [] {
      assert [] + p == p;
    } else {
      WakeupKeeps(s, q[0]);
      assert [] + p == p;
    }
  }

  /** Only the list of the owner of m and links have changed when m goes to a waiter. */
  lemma PartKeeps(s: State, m: Oid)
    ensures
      var c := Part(s, m);
      && c == s.(tasks := c.tasks, objs := c.objs) && c.tasks.Keys == s.tasks.Keys && c.objs.Keys == s.objs.Keys + {m}
      && (forall o :: o in c.objs ==> c.objs[o] == s.O(o).(next := c.objs[o].next))
      && (forall v :: v in s.tasks ==> c.tasks[v] == s.tasks[v].(mutexes := PartList(s, m, v)))
  {
    hide Through, Successor, After;
  }

  /** The list of v when m goes to its first waiter. */
  function PartList(s: State, m: Oid, v: Tid): seq<Oid> {
    var b := s.O(m);
    if Held(s, m) && b.waiters != [] && b.owner == Some(v) then Through(s.T(v).mutexes, m) + s.T(b.waiters[0]).mutexes
    else s.T(v).mutexes
  }

  lemma GiveAwayKeeps(s: State, m: Oid, u: Tid, p: seq<Oid>, h: Oid) returns (p1: seq<Oid>)
    requires Torn(s, u, p, h) && m !in p
    ensures Torn(GiveAway(s, m), u, p1, h) && forall x :: x in p1 ==> x in p || x == m
  {
    hide Part, HandOver, Held;
    var c, q := Part(s, m), s.O(m).waiters;
    PartKeeps(s, m);
    if PartList(s, m, u) != s.tasks[u].mutexes { ThroughPrefix(s.tasks[u].mutexes, p, m); }
    assert Torn(c, u, p, h);
    hide Torn;
    HandOverKeeps(c, m, u, p, h) by { assert m != h by { PrefixHas(s, u, p, h); } }
    p1 := (if q != [] && q[0] == u then [m] else []) + p;
  }

  lemma PrefixHas(s: State, u: Tid, p: seq<Oid>, h: Oid)
    requires Torn(s, u, p, h)
    ensures h in p
  {
  }

  lemma {:induction false} StaysTorn(s: State, ms: seq<Oid>, u: Tid, p: seq<Oid>, h: Oid)
    requires Torn(s, u, p, h) && NoDup(ms) && forall x :: x in ms ==> x !in p
    ensures !OwnsOk(FreeStale(s, ms), None)
    decreases |ms|
  {
    hide OwnsOk, GiveAway;
    if ms == [] {
      TornBreaks(s, u, p, h);
    } else {
      assert ms[0] in ms;
      var p1 := GiveAwayKeeps(s, ms[0], u, p, h);
      assert ms == [ms[0]] + ms[1..];
      NoDupTail(ms);
      hide Torn;
      StaysTorn(GiveAway(s, ms[0]), ms[1..], u, p1, h);
    }
  }

  /** The first owned mutex met is torn from its owner. */
  lemma Tear(s: State, h: Oid)
    requires OwnsOk(s, None) && h in s.objs && !Loose(s.objs[h])
    ensures
      var u := s.objs[h].owner.value;
      u in s.tasks && Torn(GiveAway(s, h), u, Through(s.tasks[u].mutexes, h), h)
  {
    hide OwnsOk, HandOver, Part, After, NoDup, Through, Held;
    OwnerList(s, h);
    var u := s.objs[h].owner.value;
    var ms, q := s.tasks[u].mutexes, s.objs[h].waiters;
    AfterNext(ms, h);
    PartKeeps(s, h);
    assert q != [] ==> q[0] in q;
    HandOverOwner(Part(s, h), h, s.objs[h].nested);
    assert q == [] ==> PartList(s, h, u) == ms;
  }

  /** Who owns m when it is handed over, and who holds it. */
  lemma HandOverOwner(s: State, m: Oid, nested: nat)
    requires m in s.objs
    ensures
      var s1, q := HandOver(s, m, nested), s.objs[m].waiters;
      && m in s1.objs && s1.objs[m].owner == (if q == [] then None else Some(q[0]))
      && (forall v :: v in s.tasks ==> v in s1.tasks && (s.tasks[v].Live() ==> s1.tasks[v].Live()))
      && (forall v :: v in s.tasks && (q == [] || v != q[0]) ==> s1.tasks[v].mutexes == s.tasks[v].mutexes)
  {
    hide Wakeup;
    if s.objs[m].waiters != [] { WakeupKeeps(s, s.objs[m].waiters[0]); }
  }

  lemma FreeHeld(s: State, h: Oid)
    requires OwnsOk(s, None) && h in s.objs && !Loose(s.objs[h])
    ensures !OwnsOk(FreeStale(s, [h] + After(s.T(s.objs[h].owner.value).mutexes, h)), None)
  {
    OwnerList(s, h);
    Tear(s, h);
    hide OwnsOk, GiveAway, Torn;
    var u := s.objs[h].owner.value;
    var ms := s.tasks[u].mutexes;
    AfterNext(ms, h);
    var p, r := Through(ms, h), After(ms, h);
    forall x | x in r ensures x !in p {
      if x in p { NoDupApart(p, r, x); }
    }
    assert ([h] + r)[1..] == r;
    StaysTorn(GiveAway(s, h), r, u, p, h);
  }

  lemma NoDupApart(p: seq<Oid>, r: seq<Oid>, x: Oid)
    requires NoDup(p + r) && x in p
    ensures x !in r
  {
    var i :| 0 <= i < |p| && p[i] == x;
    assert (p + r)[i] == x;
    forall j | 0 <= j < |r| ensures r[j] != x {
      assert (p + r)[|p| + j] == r[j];
    }
  }

  // ---- the links of the others -------------------------------------------------------

  /** Owned mutex x is in the list of u alone among those it may be spliced to by
      handing on a mutex of q. */
  ghost predicate Fair(s: State, u: Tid, q: seq<Oid>, x: Oid) {
    && x in s.objs && !Loose(s.objs[x]) && s.objs[x].owner == Some(u)
    && forall w :: w in s.objs[x].waiters ==>
         w in s.tasks && w != u && s.tasks[w].Waiting() && s.tasks[w].blkObj == Some(x) && forall y :: y in q ==> y !in s.tasks[w].mutexes
  }

  /** q is the end of ms. */
  ghost predicate Ends(ms: seq<Oid>, q: seq<Oid>) {
    && |q| <= |ms| && ms[|ms| - |q|..] == q
    && forall x :: x in q ==> x !in ms[..|ms| - |q|]
  }

  /** q is what is left of the list of u: in the list, or cut off from it. */
  ghost predicate Tail(s: State, u: Tid, q: seq<Oid>) {
    && NoDup(q) && u in s.tasks && (forall x :: x in q ==> Fair(s, u, q, x))
    && (Ends(s.tasks[u].mutexes, q) || forall x :: x in q ==> x !in s.tasks[u].mutexes)
  }

  lemma EndsTail(ms: seq<Oid>, q: seq<Oid>)
    requires Ends(ms, q) && NoDup(q) && q != []
    ensures Ends(ms, q[1..])
  {
    NoDupTail(q);
    hide NoDup;
    var r := q[1..];
    assert ms[|ms| - |q|..][0] == q[0];
    assert ms[|ms| - |r|..] == ms[|ms| - |q|..][1..];
    assert ms[..|ms| - |r|] == ms[..|ms| - |q|] + [q[0]];
    forall x | x in r ensures x !in ms[..|ms| - |r|] {
      assert x in q;
    }
  }

  lemma EndsFront(ms: seq<Oid>, q: seq<Oid>)
    requires Ends(ms, q) && |q| < |ms|
    ensures Ends(ms[1..], q) && ms[0] !in q
  {
    assert ms[0] in ms[..|ms| - |q|];
    assert ms[1..][..|ms| - 1 - |q|] == ms[..|ms| - |q|][1..];
    assert ms[1..][|ms| - 1 - |q|..] == q;
  }

  lemma {:induction false} EndsThrough(ms: seq<Oid>, q: seq<Oid>)
    requires Ends(ms, q) && NoDup(q) && q != []
    ensures After(ms, q[0]) == q[1..] && q[0] in ms
    ensures forall x :: x in q[1..] ==> x !in Through(ms, q[0])
  {
    NoDupTail(q);
    if |ms| == |q| {
      assert ms == q;
    } else {
      EndsFront(ms, q);
      hide NoDup, Ends;
      EndsThrough(ms[1..], q);
    }
  }

  /** Where the links lead once the lists are ready for m to be handed on. */
  lemma PartNext(s: State, m: Oid, x: Oid)
    requires m in s.objs && x in s.objs && x != m
    ensures
      var u := s.objs[m].owner;
      Part(s, m).objs[x].next == if Held(s, m) && s.objs[m].waiters != [] && x in After(s.T(u.value).mutexes, m) then Successor(s.T(u.value).mutexes, x) else s.objs[x].next
  {
    hide Through, Successor, After;
  }

  /** Links apart, waiting and time are as they were. */
  lemma PartWaits(s: State, m: Oid)
    requires WaitsOk(s) && TicksOk(s) && m in s.objs
    ensures WaitsOk(Part(s, m)) && TicksOk(Part(s, m))
  {
    hide Part, PartList, WaitsOk, TicksOk;
    PartKeeps(s, m);
    SameWaits(s, Part(s, m));
    SameTicks(s, Part(s, m));
  }

  lemma SameWaits(s: State, c: State)
    requires WaitsOk(s) && c.tasks.Keys == s.tasks.Keys && c.objs.Keys == s.objs.Keys
    requires forall o :: o in c.objs ==> c.objs[o] == s.O(o).(next := c.objs[o].next)
    requires forall v :: v in s.tasks ==> c.tasks[v] == s.tasks[v].(mutexes := c.tasks[v].mutexes)
    ensures WaitsOk(c)
  {
    hide NoDup;
  }

  lemma SameTicks(s: State, c: State)
    requires TicksOk(s) && c.tasks.Keys == s.tasks.Keys && c.ticks == s.ticks
    requires forall v :: v in s.tasks ==> c.tasks[v] == s.tasks[v].(mutexes := c.tasks[v].mutexes)
    ensures TicksOk(c)
  {
    hide NoDup;
  }

  /** Giving m away leaves to every other object all but its link, to every task but the
      new owner all but its list. */
  lemma GivenShape(s: State, m: Oid)
    requires WaitsOk(s) && TicksOk(s) && m in s.objs
    requires s.objs[m].waiters != [] ==>
      var w := s.objs[m].waiters[0]; w in s.tasks && s.tasks[w].Waiting() && s.tasks[w].blkObj == Some(m)
    ensures
      var s1, q := GiveAway(s, m), s.objs[m].waiters;
      && s1.tasks.Keys == s.tasks.Keys && s1.objs.Keys == s.objs.Keys
      && (forall o :: o in s.objs && o != m ==> s1.objs[o] == Part(s, m).objs[o])
      && (forall v :: v in s.tasks && (q == [] || v != q[0]) ==> s1.tasks[v] == s.tasks[v].(mutexes := PartList(s, m, v)))
      && (q != [] ==> s1.tasks[q[0]].mutexes == [m] + PartList(s, m, q[0]))
  {
    hide Part, PartList, WaitsOk, TicksOk, Wakeup, Remove, NoDup;
    PartKeeps(s, m);
    PartWaits(s, m);
    if s.objs[m].waiters != [] { WakeupShape(Part(s, m), s.objs[m].waiters[0], BlkFinish); }
  }

  /** The list of u when the first mutex of q is given away: as it was, or without q. */
  lemma TailList(s: State, u: Tid, q: seq<Oid>)
    requires q != [] && Tail(s, u, q)
    ensures
      var m, ms, ms1 := q[0], s.tasks[u].mutexes, PartList(s, q[0], u);
      && m in s.objs && (s.objs[m].waiters != [] ==> FirstFair(s, m, u))
      && (Held(s, m) ==> Ends(ms, q))
      && (Held(s, m) && s.objs[m].waiters != [] ==> forall x :: x in q[1..] ==> x !in ms1 && x in After(ms, m))
      && (!Held(s, m) || s.objs[m].waiters == [] ==> ms1 == ms)
      && (!Held(s, m) ==> forall x :: x in q ==> x !in ms)
      && forall x :: x in q[1..] ==> x in q && x in s.objs && x != m
  {
    hide NoDup, Through, After, Ends, FirstFair, Fair, Loose;
    var m, ms := q[0], s.tasks[u].mutexes;
    NoDupTail(q);
    FairFirst(s, u, q, m);
    if Ends(ms, q) { EndsThrough(ms, q); }
    forall x | x in q[1..] ensures x in q && x in s.objs && x != m { FairOwner(s, u, q, x); }
  }

  lemma FairFirst(s: State, u: Tid, q: seq<Oid>, m: Oid)
    requires Tail(s, u, q) && m in q
    ensures m in s.objs && !Loose(s.objs[m]) && s.objs[m].owner == Some(u)
    ensures s.objs[m].waiters != [] ==> FirstFair(s, m, u) && forall y :: y in q ==> y !in s.tasks[s.objs[m].waiters[0]].mutexes
  {
    hide NoDup, Ends;
    assert Fair(s, u, q, m);
    assert s.objs[m].waiters != [] ==> s.objs[m].waiters[0] in s.objs[m].waiters;
  }

  /** The first waiter of m can get it. */
  predicate FirstFair(s: State, m: Oid, u: Tid)
    requires m in s.objs && s.objs[m].waiters != []
  {
    var w := s.objs[m].waiters[0];
    w in s.tasks && w != u && s.tasks[w].Waiting() && s.tasks[w].blkObj == Some(m)
  }

  lemma FairOwner(s: State, u: Tid, q: seq<Oid>, x: Oid)
    requires Tail(s, u, q) && x in q
    ensures u in s.tasks && x in s.objs && !Loose(s.objs[x]) && s.objs[x].owner == Some(u)
  {
    assert Fair(s, u, q, x);
  }

  lemma TailLink(s: State, u: Tid, q: seq<Oid>, x: Oid)
    requires WaitsOk(s) && TicksOk(s) && q != [] && Tail(s, u, q) && x in q[1..]
    ensures Next(GiveAway(s, q[0]), x) == Next(s, x)
  {
    hide WaitsOk, TicksOk, GiveAway, Part, PartList, Ends, NoDup, After, Successor, Tail, Fair, Loose;
    var m := q[0];
    TailList(s, u, q);
    FairOwner(s, u, q, x);
    FairOwner(s, u, q, m);
    PartKeeps(s, m);
    PartNext(s, m, x);
    GivenShape(s, m);
    EndsHas(s.tasks[u].mutexes, q, x);
    assert Loose(GiveAway(s, m).objs[x]) == Loose(s.objs[x]) by { LooseSame(s.objs[x], GiveAway(s, m).objs[x]); }
  }

  lemma LooseSame(b: Obj, b1: Obj)
    requires b1.kind == b.kind && b1.owner == b.owner
    ensures Loose(b1) == Loose(b)
  {
  }

  lemma EndsHas(ms: seq<Oid>, q: seq<Oid>, x: Oid)
    requires x in q
    ensures Ends(ms, q) ==> x in ms
  {
    if Ends(ms, q) { assert x in ms[|ms| - |q|..]; }
  }

  lemma TailFair(s: State, u: Tid, q: seq<Oid>, x: Oid)
    requires WaitsOk(s) && TicksOk(s) && q != [] && Tail(s, u, q) && x in q[1..]
    ensures Fair(GiveAway(s, q[0]), u, q[1..], x)
  {
    hide WaitsOk, TicksOk, GiveAway, Part, Ends, NoDup, After, Successor, Loose, Through, Held;
    var m := q[0];
    TailList(s, u, q);
    var s1, b := GiveAway(s, m), s.objs[x];
    assert Fair(s, u, q, x) && Fair(s, u, q, m);
    PartKeeps(s, m);
    GivenShape(s, m);
    LooseSame(b, s1.objs[x]);
    assert s1.objs[x].waiters == b.waiters && s1.objs[x].owner == Some(u);
    forall w | w in b.waiters
      ensures w in s1.tasks && w != u && s1.tasks[w].Waiting() && s1.tasks[w].blkObj == Some(x)
      ensures forall y :: y in q[1..] ==> y !in s1.tasks[w].mutexes
    {
      assert s1.tasks[w] == s.tasks[w].(mutexes := PartList(s, m, w));
      assert PartList(s, m, w) == s.tasks[w].mutexes;
    }
  }

  /** Giving away the first mutex of q leaves the others where they are, and their links. */
  lemma TailStep(s: State, u: Tid, q: seq<Oid>)
    requires WaitsOk(s) && TicksOk(s) && q != [] && Tail(s, u, q)
    ensures var s1 := GiveAway(s, q[0]); Tail(s1, u, q[1..]) && forall x :: x in q[1..] ==> Next(s1, x) == Next(s, x)
  {
    var m := q[0];
    var s1 := GiveAway(s, m);
    NoDupTail(q);
    TailList(s, u, q);
    assert Ends(s.tasks[u].mutexes, q) ==> Ends(s.tasks[u].mutexes, q[1..]) by {
      if Ends(s.tasks[u].mutexes, q) { EndsTail(s.tasks[u].mutexes, q); }
    }
    assert s1.tasks.Keys == s.tasks.Keys && s1.tasks[u].mutexes == PartList(s, m, u) by {
      hide GiveAway;
      GivenShape(s, m);
    }
    forall x | x in q[1..] ensures Fair(s1, u, q[1..], x) && Next(s1, x) == Next(s, x) {
      TailLink(s, u, q, x);
      TailFair(s, u, q, x);
    }
    hide GiveAway, Next, Fair, Ends, Held, PartList, NoDup, After;
  }

  /** What the loop of `task_mutex_free` still has ahead of it: n loose mutexes, and
      then the rest of the list of u. */
  ghost predicate Way(s: State, u: Tid, n: nat, ms: seq<Oid>) {
    && n <= |ms|
    && (forall i :: 0 <= i < n ==> Free(s, ms[i]))
    && (forall x :: x in ms ==> x in s.objs)
    && (n < |ms| ==> Tail(s, u, ms[n..]))
  }

  predicate Free(s: State, m: Oid) { m in s.objs && Loose(s.objs[m]) && s.objs[m].waiters == [] }

  lemma FreeLink(s: State, m: Oid)
    requires Free(s, m)
    ensures GiveAway(s, m) == s.PutO(m, s.objs[m].(owner := None))
    ensures forall x :: Next(GiveAway(s, m), x) == Next(s, x)
    ensures forall x :: Free(s, x) ==> Free(GiveAway(s, m), x)
  {
    hide Successor;
  }

  lemma FreeTail(s: State, m: Oid, u: Tid, q: seq<Oid>)
    requires Free(s, m) && Tail(s, u, q)
    ensures Tail(s.PutO(m, s.objs[m].(owner := None)), u, q)
  {
    hide NoDup, Ends;
    forall x | x in q ensures Fair(s.PutO(m, s.objs[m].(owner := None)), u, q, x) {
      assert Fair(s, u, q, x);
    }
  }

  /** Giving away the mutex met first changes no link of those to come. */
  lemma WayStep(s: State, u: Tid, n: nat, ms: seq<Oid>)
    requires WaitsOk(s) && TicksOk(s) && Way(s, u, n, ms) && ms != []
    ensures
      var s1 := GiveAway(s, ms[0]);
      && Way(s1, u, if n == 0 then 0 else n - 1, ms[1..])
      && forall x :: x in ms[1..] ==> Next(s1, x) == Next(s, x)
  {
    hide GiveAway, Next, Tail, Free, WaitsOk, TicksOk;
    var m, r := ms[0], ms[1..];
    if n == 0 {
      assert ms[0..] == ms && r[0..] == r;
      TailStep(s, u, ms);
      TailThere(GiveAway(s, m), u, r);
    } else {
      FreeLink(s, m);
      assert r[n - 1..] == ms[n..];
      if n < |ms| { FreeTail(s, m, u, ms[n..]); }
    }
  }

  lemma TailThere(s: State, u: Tid, q: seq<Oid>)
    requires Tail(s, u, q)
    ensures forall x :: x in q ==> x in s.objs
  {
    forall x | x in q ensures x in s.objs { FairOwner(s, u, q, x); }
  }

  lemma {:induction false} ChainedKept(s: State, s1: State, x: Option<Oid>, ms: seq<Oid>)
    requires Chained(s, x, ms) && forall y :: y in ms ==> Next(s1, y) == Next(s, y)
    ensures Chained(s1, x, ms)
    decreases |ms|
  {
    hide Next;
    if x.Some? { ChainedKept(s, s1, Next(s, x.value), ms[1..]); }
  }

  /** The way from the pointer a deleted task keeps. */
  lemma StaleWay(s: State, t: Tid) returns (u: Tid, n: nat)
    requires Inv(s) && t in s.tasks
    ensures Way(s, u, n, StaleList(s, t)) && Chained(s, Head(s.tasks[t].mutexes), StaleList(s, t))
  {
    hide Inv, OwnsOk, Leads, Way, StaleList, Chained, Head;
    InvOwns(s);
    var pre, h := StaleLeads(s, t);
    u := LeadsWay(s, StaleList(s, t), pre, h);
    n := |pre|;
  }

  lemma LeadsWay(s: State, ms: seq<Oid>, pre: seq<Oid>, h: Option<Oid>) returns (u: Tid)
    requires Inv(s) && Leads(s, ms, pre, h)
    ensures Way(s, u, |pre|, ms)
  {
    LeadsFree(s, ms, pre, h);
    LeadsRest(s, ms, pre, h);
    hide Inv, Free, Tail, After, Way, Leads;
    if h.Some? {
      u := s.O(h.value).owner.value;
      WayJoin(s, u, pre, [h.value] + After(s.T(u).mutexes, h.value));
    } else {
      u := 0;
      WayJoin(s, u, pre, []);
    }
  }

  lemma LeadsRest(s: State, ms: seq<Oid>, pre: seq<Oid>, h: Option<Oid>)
    requires Inv(s) && Leads(s, ms, pre, h)
    ensures h == None ==> ms == pre + []
    ensures h.Some? ==>
      && s.O(h.value).owner.Some?
      && var u := s.O(h.value).owner.value; var q := [h.value] + After(s.T(u).mutexes, h.value); Tail(s, u, q) && ms == pre + q
  {
    hide Inv, Tail, After, MutexPtr;
    if h.Some? { RestTail(s, h.value); }
  }

  lemma LeadsFree(s: State, ms: seq<Oid>, pre: seq<Oid>, h: Option<Oid>)
    requires Inv(s) && Leads(s, ms, pre, h)
    ensures forall x :: x in pre ==> Free(s, x)
  {
    hide Inv, Free, MutexPtr, Loose, After;
    forall x | x in pre ensures Free(s, x) { LooseFree(s, x); }
  }

  lemma WayJoin(s: State, u: Tid, pre: seq<Oid>, q: seq<Oid>)
    requires (forall x :: x in pre ==> Free(s, x)) && (q != [] ==> Tail(s, u, q))
    ensures Way(s, u, |pre|, pre + q)
  {
    hide Tail;
    if q != [] { TailThere(s, u, q); }
    assert (pre + q)[|pre|..] == q;
  }

  lemma LooseFree(s: State, m: Oid)
    requires Inv(s) && MutexPtr(s, m) && Loose(s.O(m))
    ensures Free(s, m)
  {
    hide ReadyOk, TicksOk, TasksOk, WaitsOk, SortedOk, PiOk, ActiveOk, LinksOk;
    if s.objs[m].kind == Mutex {
      assert MutexOk(s, m, false);
    }
  }

  /** The rest of the list of the owner of m, from m on. */
  lemma RestTail(s: State, m: Oid)
    requires Inv(s) && m in s.objs && !Loose(s.objs[m])
    ensures var u := s.objs[m].owner.value; Tail(s, u, [m] + After(s.T(u).mutexes, m))
  {
    hide Inv, OwnsOk, After, NoDup, Ends, Fair;
    InvOwns(s);
    OwnerList(s, m);
    var u := s.objs[m].owner.value;
    var q := [m] + After(s.tasks[u].mutexes, m);
    RestEnds(s.tasks[u].mutexes, m);
    forall x | x in q ensures Fair(s, u, q, x) { OwnedFair(s, u, q, x); }
  }

  lemma RestEnds(ms: seq<Oid>, m: Oid)
    requires NoDup(ms) && m in ms
    ensures var q := [m] + After(ms, m); NoDup(q) && Ends(ms, q) && forall x :: x in q ==> x in ms
  {
    AfterNext(ms, m);
    ThroughEnd(ms, m);
    hide Through, NoDup;
    var r := After(ms, m);
    var q := [m] + r;
    NoDupTail(q);
    assert q[1..] == r;
    hide After;
    var p := Through(ms, m)[..|Through(ms, m)| - 1];
    assert ms == p + q;
    assert ms[..|ms| - |q|] == p;
    forall x | x in q ensures x !in p { if x in p { NoDupApart(p, q, x); } }
  }

  lemma ThroughEnd(ms: seq<Oid>, m: Oid)
    requires m in ms
    ensures Through(ms, m) != [] && Through(ms, m)[|Through(ms, m)| - 1] == m
  {
  }

  lemma OwnedFair(s: State, u: Tid, q: seq<Oid>, x: Oid)
    requires Inv(s) && x in q && u in s.tasks && s.tasks[u].Live() && forall y :: y in q ==> y in s.tasks[u].mutexes
    ensures Fair(s, u, q, x)
  {
    hide Inv;
    OwnedFacts(s, u, x);
    forall w | w in s.objs[x].waiters
      ensures w in s.tasks && w != u && s.tasks[w].Waiting() && s.tasks[w].blkObj == Some(x) && forall y :: y in q ==> y !in s.tasks[w].mutexes
    {
      QueuedWaiter(s, x, w);
      forall y | y in q ensures y !in s.tasks[w].mutexes {
        if y in s.tasks[w].mutexes { OwnedFacts(s, w, y); OwnedFacts(s, u, y); }
      }
    }
  }

  lemma OwnedFacts(s: State, u: Tid, x: Oid)
    requires Inv(s) && u in s.tasks && s.tasks[u].Live() && x in s.tasks[u].mutexes
    ensures x in s.objs && !Loose(s.objs[x]) && s.objs[x].owner == Some(u) && u !in s.objs[x].waiters
  {
    hide ReadyOk, TicksOk, TasksOk, SortedOk, PiOk, ActiveOk, LinksOk, NoDup, WaitsOk;
    assert MutexOk(s, x, false);
  }

  lemma QueuedWaiter(s: State, x: Oid, w: Tid)
    requires Inv(s) && x in s.objs && w in s.objs[x].waiters
    ensures w in s.tasks && s.tasks[w].Waiting() && s.tasks[w].blkObj == Some(x)
  {
    hide ReadyOk, TicksOk, TasksOk, SortedOk, PiOk, ActiveOk, OwnsOk, NoDup;
  }

  // ---- the theorem -------------------------------------------------------------------

  lemma DisownedHeld(s: State, s1: State, h: Oid)
    requires Disowned(s, s1) && h in s.objs && !Loose(s.objs[h])
    ensures h in s1.objs && s1.objs[h] == s.objs[h] && s1.tasks == s.tasks
  {
  }

  /** Deleting a deleted task again keeps the invariant exactly if every mutex the links
      meet, from the one it still points to, is in nobody's list. */
  lemma DeleteAgain(s: State, which: Option<Tid>)
    requires Inv(s) && s.nesting == 0
    requires var t := if which.Some? then which.value else s.active;
      t in s.tasks && !s.tasks[t].Live() && s.tasks[t].prio != IDLE_PRI && !(t == s.active && s.schedLock > 0)
    ensures var t := if which.Some? then which.value else s.active;
      Inv(TaskDel(s, which).0) <==> StaleSafe(s, t)
  {
    var t := if which.Some? then which.value else s.active;
    assert OwnsOk(s, None) by { hide WaitsOk, SortedOk, ReadyOk, TicksOk, PiOk; }
    hide Inv, OwnsOk, Leads, StaleSafe, StaleList;
    var pre, h := StaleLeads(s, t);
    SafeLeads(s, t, pre, h);
    LeadsInv(s, StaleList(s, t), pre, h);
  }

  lemma LeadsInv(s: State, ms: seq<Oid>, pre: seq<Oid>, h: Option<Oid>)
    requires Inv(s) && Leads(s, ms, pre, h)
    ensures Inv(FreeStale(s, ms)) <==> h == None
    ensures h == None ==> Disowned(s, FreeStale(s, ms))
  {
    hide Inv, OwnsOk, FreeStale;
    var s1 := FreeStale(s, pre);
    if h == None {
      FreeLoose(s, pre, []);
    } else {
      var r := [h.value] + After(s.T(s.objs[h.value].owner.value).mutexes, h.value);
      assert ms == pre + r;
      FreeLoose(s, pre, r);
      DisownedHeld(s, s1, h.value);
      InvOwns(s1);
      FreeHeld(s1, h.value);
      assert !Inv(FreeStale(s1, r)) by {
        if Inv(FreeStale(s1, r)) { InvOwns(FreeStale(s1, r)); }
      }
    }
  }

  lemma InvOwns(s: State)
    requires Inv(s)
    ensures OwnsOk(s, None)
  {
  }

  lemma StaleKeeps(s: State, t: Tid)
    requires Inv(s) && StaleSafe(s, t)
    ensures Inv(FreeStale(s, StaleList(s, t))) && Disowned(s, FreeStale(s, StaleList(s, t)))
  {
    InvOwns(s);
    hide Inv, OwnsOk, Leads, StaleSafe, FreeStale, Disowned;
    if t in s.tasks {
      var pre, h := StaleLeads(s, t);
      SafeLeads(s, t, pre, h);
      LeadsInv(s, StaleList(s, t), pre, h);
    } else {
      FreeLoose(s, [], []);
    }
  }

  // ---- the pointer a deleted task keeps ----------------------------------------------

  lemma EpitaphInv(s: State, t: Tid, ms: seq<Oid>)
    requires Base(s, None) && PiOk(s, None) && NoneWaits(s) && t in s.tasks && !s.tasks[t].Live()
    requires ms != [] ==> MutexPtr(s, ms[0])
    ensures Base(Epitaph(s, t, ms), None) && PiOk(Epitaph(s, t, ms), None) && NoneWaits(Epitaph(s, t, ms))
  {
    hide ReadyOk, OwnsOk, WaitsOk, SortedOk, TicksOk, TasksOk, MutexPtr;
    var s1 := Epitaph(s, t, ms);
    EpitaphOwns(s, t, ms);
    TakeLists(s, s1);
    ReadySame(s, s1);
    TakeTasksDead(s, s1, t);
    PiDead(s, s1, t);
  }

  lemma TakeTasksDead(s: State, s1: State, t: Tid)
    requires TasksOk(s) && TicksOk(s) && t in s.tasks && !s.tasks[t].Live()
    requires t in s1.tasks && s1.tasks == s.tasks[t := s.tasks[t].(mutexes := s1.tasks[t].mutexes)]
    requires s1.ticks == s.ticks && s1.active == s.active
    ensures TasksOk(s1) && TicksOk(s1)
  {
    assert TaskOk(t, s.tasks[t]);
    TakeTasks(s, s1, t);
  }

  lemma PiDead(s: State, s1: State, t: Tid)
    requires PiOk(s, None) && t in s.tasks && !s.tasks[t].Live() && s1.objs == s.objs
    requires t in s1.tasks && s1.tasks == s.tasks[t := s.tasks[t].(mutexes := s1.tasks[t].mutexes)]
    ensures PiOk(s1, None)
  {
    forall u | u in s1.tasks && s1.tasks[u].Live() ensures PiAt(s1, u) {
      assert PiAt(s, u);
      IsMinFrame(s, s1, s.tasks[u].mutexes, s.tasks[u].bPrio, s.tasks[u].prio);
    }
  }

  lemma EpitaphOwns(s: State, t: Tid, ms: seq<Oid>)
    requires OwnsOk(s, None) && t in s.tasks && !s.tasks[t].Live() && (ms != [] ==> MutexPtr(s, ms[0]))
    ensures OwnsOk(Epitaph(s, t, ms), None)
  {
    var s1 := Epitaph(s, t, ms);
    assert LinksOk(s1) by {
      hide LinksOk, MutexOk, NoDup;
      assert forall m :: MutexPtr(s, m) ==> MutexPtr(s1, m);
      LinksFrame(s, s1);
    }
    hide LinksOk, NoDup;
    forall m | m in s1.objs && s1.objs[m].kind == Mutex ensures MutexOk(s1, m, false) {
      assert MutexOk(s, m, false);
    }
  }
}
