/** Message queues over a ring buffer: receivers that wait, messages handed to them
    directly, and what is delivered over whole runs. */
module BufQueueSpec {
  import opened Bytes
  import opened RingStream

  type Msg = seq<byte>

  /** A receiver blocked on the queue. Smaller numbers are better priorities. */
  datatype Waiter = Waiter(id: nat, prio: nat)

  datatype Delivery = Delivery(id: nat, msg: Msg)

  /** The queue, and the messages accepted so far: as they were sent, as they are due to
      arrive, and those that have arrived, in order. */
  datatype State = State(
    kind: Kind,
    capacity: nat,
    maxMsg: nat,
    msgs: seq<Msg>,
    waiters: seq<Waiter>,
    sent: seq<Msg>,
    due: seq<Msg>,
    got: seq<Delivery>)

  datatype Result = Ok | InvalidParam | SizeOverflow | QueueFull | NoPendWait | SchedDisable | Blocked

  /** Free bytes of the ring. */
  function FreeSize(s: State): int { s.capacity - Space(s.kind, s.msgs) }

  /** `pend_list_add` for a queue, whose policy is always by priority. */
  function Enqueue(q: seq<Waiter>, w: Waiter): seq<Waiter> {
    if q == [] then [w] else if w.prio < q[0].prio then [w] + q else [q[0]] + Enqueue(q[1..], w)
  }

  function Drop(q: seq<Waiter>, id: nat): seq<Waiter> {
    if q == [] then [] else if q[0].id == id then q[1..] else [q[0]] + Drop(q[1..], id)
  }

  /** `buf_queue_send` of the message m, with the bytes of memory behind it. */
  function Send(s: State, m: Msg, behind: seq<byte>): (State, Result)
    requires Readable(s.kind, m + behind, |m|)
  {
    if |m| > s.maxMsg then (s, SizeOverflow)
    else if |m| == 0 then (s, InvalidParam)
    else if s.waiters == [] then
      match PushStatus(s.kind, if FreeSize(s) >= 0 then FreeSize(s) else 0, |m|)
      case InvParam => (s, InvalidParam)
      case Full => (s, QueueFull)
      case Success =>
        var r := Stored(s.kind, m + behind, |m|);
        (s.(msgs := s.msgs + [r], sent := s.sent + [m], due := s.due + [r]), Ok)
    else
      (s.(waiters := s.waiters[1..], sent := s.sent + [m], due := s.due + [m], got := s.got + [Delivery(s.waiters[0].id, m)]), Ok)
  }

  /** `krhino_buf_queue_recv`: a task may want to wait, and may have locked the scheduler. */
  function Recv(s: State, w: Waiter, wait: bool, locked: bool): (State, Result) {
    if s.msgs != [] then (s.(msgs := s.msgs[1..], got := s.got + [Delivery(w.id, s.msgs[0])]), Ok)
    else if !wait then (s, NoPendWait)
    else if locked then (s, SchedDisable)
    else (s.(waiters := Enqueue(s.waiters, w)), Blocked)
  }

  /** A receiver stops waiting without a message: timeout, abort or deletion. */
  function Leave(s: State, id: nat): State { s.(waiters := Drop(s.waiters, id)) }

  /** The priority of a waiting receiver changes. */
  function Reprio(s: State, w: Waiter): State { s.(waiters := Enqueue(Drop(s.waiters, w.id), w)) }

  // ---- whole runs ------------------------------------------------------------------------

  datatype Op =
    | Put(m: Msg, behind: seq<byte>)
    | Take(w: Waiter, wait: bool, locked: bool)
    | GiveUp(id: nat)
    | Change(w: Waiter)

  predicate Legal(t: Kind, op: Op) { op.Put? ==> Readable(t, op.m + op.behind, |op.m|) }

  function Apply(s: State, op: Op): (s1: State)
    requires Legal(s.kind, op)
    ensures s1.kind == s.kind
  {
    match op
    case Put(m, behind) => Send(s, m, behind).0
    case Take(w, wait, locked) => Recv(s, w, wait, locked).0
    case GiveUp(id) => Leave(s, id)
    case Change(w) => if exists x :: x in s.waiters && x.id == w.id then Reprio(s, w) else s
  }

  function Run(s: State, ops: seq<Op>): (s1: State)
    requires forall op :: op in ops ==> Legal(s.kind, op)
    ensures s1.kind == s.kind
    decreases |ops|
  {
    if ops == [] then s else Run(Apply(s, ops[0]), ops[1..])
  }

  function Msgs(got: seq<Delivery>): seq<Msg> {
    if got == [] then [] else [got[0].msg] + Msgs(got[1..])
  }

  /** r is what a message sent as m becomes: m itself, or with fixed-size records a whole
      block that begins with m. */
  predicate Carries(t: Kind, m: Msg, r: Msg) {
    r == m || (t.Fix? && |m| < |r| == t.blk && m <= r)
  }

  /** Every accepted message was delivered once or is in the ring, in the order of
      acceptance, and nobody waits while the ring holds a message. */
  ghost predicate Inv(s: State) {
    && s.due == Msgs(s.got) + s.msgs
    && |s.sent| == |s.due| && (forall i :: 0 <= i < |s.sent| ==> Carries(s.kind, s.sent[i], s.due[i]))
    && (s.kind.Fix? ==> s.maxMsg <= s.kind.blk)
    && (s.waiters != [] ==> s.msgs == [])
    && ByPrio(s.waiters)
  }

  function Empty(kind: Kind, capacity: nat, maxMsg: nat): State {
    State(kind, capacity, maxMsg, [], [], [], [], [])
  }

  lemma {:induction false} MsgsAppend(got: seq<Delivery>, d: Delivery)
    ensures Msgs(got + [d]) == Msgs(got) + [d.msg]
  {
    if got == [] {
      assert (got + [d])[1..] == [];
    } else {
      MsgsAppend(got[1..], d);
      assert (got + [d])[1..] == got[1..] + [d];
    }
  }

  predicate ByPrio(q: seq<Waiter>) {
    forall i, j :: 0 <= i < j < |q| ==> q[i].prio <= q[j].prio
  }

  lemma ConsSorted(x: Waiter, q: seq<Waiter>)
    requires ByPrio(q) && forall y :: y in q ==> x.prio <= y.prio
    ensures ByPrio([x] + q)
  {
  }

  lemma {:induction false} EnqueueSorted(q: seq<Waiter>, w: Waiter)
    requires ByPrio(q)
    ensures ByPrio(Enqueue(q, w)) && forall x :: x in Enqueue(q, w) <==> x == w || x in q
  {
    if q != [] {
      assert q == [q[0]] + q[1..];
      EnqueueSorted(q[1..], w);
      if w.prio < q[0].prio { ConsSorted(w, q); } else { ConsSorted(q[0], Enqueue(q[1..], w)); }
    }
  }

  lemma {:induction false} DropSorted(q: seq<Waiter>, id: nat)
    requires ByPrio(q)
    ensures ByPrio(Drop(q, id)) && forall x :: x in Drop(q, id) ==> x in q
  {
    if q != [] {
      assert q == [q[0]] + q[1..];
      DropSorted(q[1..], id);
      if q[0].id != id { ConsSorted(q[0], Drop(q[1..], id)); }
    }
  }

  lemma ApplyInv(s: State, op: Op)
    requires Inv(s) && Legal(s.kind, op)
    ensures Inv(Apply(s, op))
  {
    if op.Put? { SendInv(s, op.m, op.behind); } else { OtherInv(s, op); }
  }

  lemma SendInv(s: State, m: Msg, behind: seq<byte>)
    requires Inv(s) && Readable(s.kind, m + behind, |m|)
    ensures Inv(Send(s, m, behind).0)
  {
    hide Msgs, Space;
    if s.waiters != [] { MsgsAppend(s.got, Delivery(s.waiters[0].id, m)); }
    assert (m + behind)[..|m|] == m;
  }

  lemma OtherInv(s: State, op: Op)
    requires Inv(s) && !op.Put?
    ensures Inv(Apply(s, op))
  {
    hide Msgs;
    assert ByPrio(s.waiters);
    match op
    case Take(w, wait, locked) =>
      if s.msgs != [] {
        MsgsAppend(s.got, Delivery(w.id, s.msgs[0]));
        assert s.msgs == [s.msgs[0]] + s.msgs[1..];
      } else {
        EnqueueSorted(s.waiters, w);
        assert ByPrio(Enqueue(s.waiters, w));
      }
    case GiveUp(id) =>
      DropSorted(s.waiters, id);
      assert ByPrio(Drop(s.waiters, id));
    case Change(w) =>
      DropSorted(s.waiters, w.id);
      EnqueueSorted(Drop(s.waiters, w.id), w);
      assert ByPrio(Enqueue(Drop(s.waiters, w.id), w));
  }

  /** Exactly once and in order, over every run: what receivers got, followed by what
      is still in the ring, is what the accepted messages became. */
  lemma {:induction false} RunDelivers(s: State, ops: seq<Op>)
    requires Inv(s) && forall op :: op in ops ==> Legal(s.kind, op)
    ensures Inv(Run(s, ops)) && Run(s, ops).kind == s.kind
    decreases |ops|
  {
    hide Apply;
    if ops != [] {
      assert ops[0] in ops;
      ApplyInv(s, ops[0]);
      RunDelivers(Apply(s, ops[0]), ops[1..]);
    }
  }

  /** From an empty queue on: the messages received are the first ones accepted, in order
      and once each, and the others are in the ring. */
  lemma FreshRunDelivers(kind: Kind, capacity: nat, maxMsg: nat, ops: seq<Op>)
    requires (forall op :: op in ops ==> Legal(kind, op)) && (kind.Fix? ==> maxMsg <= kind.blk)
    ensures
      var s := Run(Empty(kind, capacity, maxMsg), ops);
      && |s.got| <= |s.sent| == |s.due| && Msgs(s.got) == s.due[..|s.got|] && s.due[|s.got|..] == s.msgs
      && forall i :: 0 <= i < |s.sent| ==> Carries(kind, s.sent[i], s.due[i])
  {
    var s := Run(Empty(kind, capacity, maxMsg), ops);
    RunDelivers(Empty(kind, capacity, maxMsg), ops);
    MsgsLength(s.got);
  }

  // ---- what is accepted and who is served ------------------------------------------------------

  /** Bytes of all the messages. */
  function Total(msgs: seq<Msg>): nat { if msgs == [] then 0 else |msgs[0]| + Total(msgs[1..]) }

  lemma {:induction false} SpaceIs(t: Kind, msgs: seq<Msg>)
    ensures Space(t, msgs) == match t case Fix(blk) => |msgs| * blk case Dyn(w) => Total(msgs) + |msgs| * w
  {
    if msgs != [] {
      SpaceIs(t, msgs[1..]);
      OneMore(|msgs| - 1, if t.Fix? then t.blk else t.width);
    }
  }

  lemma OneMore(n: nat, k: nat)
    ensures (n + 1) * k == n * k + k
  {
  }

  lemma PushIs(t: Kind, freesize: nat, len: nat)
    requires t.Dyn? ==> t.width == 4 || t.width == 8
    requires 0 < len && !Overflows(t, len)
    ensures PushStatus(t, freesize, len) == if t.Dyn? && len >= UINT32_MAX then InvParam else if freesize < Cost(t, len) then Full else Success
  {
    Pow256Is();
    hide Pow256;
    if t.Dyn? && len < UINT32_MAX { assert (t.width + len) % Pow256(t.width) == t.width + len; }
  }

  /** A message is accepted exactly if its length is legal and either a receiver waits or
      there is room: for one more block, or for all the bytes and their prefixes. */
  lemma SendIs(s: State, m: Msg, behind: seq<byte>)
    requires Readable(s.kind, m + behind, |m|) && !Overflows(s.kind, |m|)
    requires (s.kind.Dyn? ==> s.kind.width == 4 || s.kind.width == 8) && FreeSize(s) >= 0
    ensures var (s1, r) := Send(s, m, behind);
      && (r == SizeOverflow <==> |m| > s.maxMsg)
      && (r == InvalidParam <==> |m| <= s.maxMsg && (|m| == 0 || (s.waiters == [] && s.kind.Dyn? && |m| >= 0xFFFF_FFFF)))
      && (r == Ok <==> 0 < |m| <= s.maxMsg && (s.waiters != [] || match s.kind
           case Fix(blk) => |s.msgs| * blk + blk <= s.capacity
           case Dyn(w) => |m| < 0xFFFF_FFFF && Total(s.msgs) + |s.msgs| * w + |m| + w <= s.capacity))
      && (r != Ok ==> s1 == s && r in {SizeOverflow, InvalidParam, QueueFull})
  {
    hide PushStatus, Space, Total;
    SpaceIs(s.kind, s.msgs);
    if 0 < |m| { PushIs(s.kind, if FreeSize(s) >= 0 then FreeSize(s) else 0, |m|); }
  }

  /** Whoever asks while the ring holds messages gets the oldest one at once, whether he
      would wait or not; when the ring is empty he gets none, and waits if he may. */
  lemma RecvIs(s: State, w: Waiter, wait: bool, locked: bool)
    ensures var (s1, r) := Recv(s, w, wait, locked);
      && (s.msgs != [] ==> r == Ok && [s.msgs[0]] + s1.msgs == s.msgs && s1 == s.(msgs := s1.msgs, got := s.got + [Delivery(w.id, s.msgs[0])]))
      && (s.msgs == [] ==> (r == NoPendWait <==> !wait) && (r == SchedDisable <==> wait && locked) && (r == Blocked <==> wait && !locked))
      && (s.msgs == [] ==> s1 == s.(waiters := s1.waiters) && (r != Blocked ==> s1 == s))
      && (r == Blocked ==> multiset(s1.waiters) == multiset(s.waiters) + multiset{w})
  {
    EnqueueAll(s.waiters, w);
  }

  lemma {:induction false} EnqueueAll(q: seq<Waiter>, w: Waiter)
    ensures multiset(Enqueue(q, w)) == multiset(q) + multiset{w}
  {
    if q != [] {
      assert q == [q[0]] + q[1..];
      EnqueueAll(q[1..], w);
    }
  }

  /** A receiver that waits stands behind all that are as urgent or more, in front of the
      others. */
  lemma {:induction false} EnqueueIs(q: seq<Waiter>, w: Waiter) returns (k: nat)
    requires ByPrio(q)
    ensures k <= |q| && Enqueue(q, w) == q[..k] + [w] + q[k..]
    ensures (forall i :: 0 <= i < k ==> q[i].prio <= w.prio) && forall i :: k <= i < |q| ==> q[i].prio > w.prio
  {
    if q == [] || w.prio < q[0].prio {
      k := 0;
    } else {
      var r := q[1..];
      var n := EnqueueIs(r, w);
      k := n + 1;
      assert q[..k] == [q[0]] + r[..n] && q[k..] == r[n..];
    }
  }

  /** A receiver that stops waiting is gone; everybody else waits on. */
  lemma {:induction false} DropIs(q: seq<Waiter>, id: nat)
    requires forall i, j :: 0 <= i < j < |q| ==> q[i].id != q[j].id
    ensures forall x :: x in Drop(q, id) <==> x in q && x.id != id
  {
    if q != [] {
      assert q == [q[0]] + q[1..];
      assert forall i :: 0 <= i < |q| - 1 ==> q[1..][i] == q[i + 1];
      if q[0].id == id {
        forall x | x in q[1..] ensures x.id != id {
          var i :| 0 <= i < |q[1..]| && q[1..][i] == x;
          assert q[i + 1] == x;
        }
      } else {
        DropIs(q[1..], id);
      }
    }
  }

  /** As many receives as there are messages empty the ring: the messages go out in order,
      one to each, whatever the receivers say about waiting. */
  lemma {:induction false} TakesDrain(s: State, ops: seq<Op>)
    requires |ops| <= |s.msgs| && forall i :: 0 <= i < |ops| ==> ops[i].Take?
    ensures (forall op :: op in ops ==> Legal(s.kind, op))
    ensures var s1 := Run(s, ops);
      && s1 == s.(msgs := s.msgs[|ops|..], got := s1.got)
      && |s1.got| == |s.got| + |ops| && s.got <= s1.got
      && forall i :: 0 <= i < |ops| ==> s1.got[|s.got| + i] == Delivery(ops[i].w.id, s.msgs[i])
    decreases |ops|
  {
    if ops != [] {
      var op, s1 := ops[0], Apply(s, ops[0]);
      assert s1.msgs == s.msgs[1..] && s1.got == s.got + [Delivery(op.w.id, s.msgs[0])];
      TakesDrain(s1, ops[1..]);
      assert s.msgs[1..][|ops| - 1..] == s.msgs[|ops|..];
      var s2 := Run(s, ops);
      forall i | 0 <= i < |ops| ensures s2.got[|s.got| + i] == Delivery(ops[i].w.id, s.msgs[i]) {
        if i > 0 { assert ops[1..][i - 1] == ops[i] && s.msgs[1..][i - 1] == s.msgs[i]; }
      }
    }
  }

  /** A message sent while n lie in the ring goes to the receiver that asks as the last of
      n + 1: as it was sent, or as a block that begins with it. */
  lemma SentIsTaken(s: State, m: Msg, behind: seq<byte>, ops: seq<Op>)
    requires Inv(s) && s.waiters == [] && Legal(s.kind, Put(m, behind)) && Send(s, m, behind).1 == Ok
    requires |ops| == |s.msgs| + 1 && forall i :: 0 <= i < |ops| ==> ops[i].Take?
    ensures (forall op :: op in [Put(m, behind)] + ops ==> Legal(s.kind, op))
    ensures var s1 := Run(s, [Put(m, behind)] + ops);
      && s1.msgs == [] && |s1.got| == |s.got| + |ops|
      && var d := s1.got[|s1.got| - 1]; d.id == ops[|s.msgs|].w.id && Carries(s.kind, m, d.msg) && (s.kind.Dyn? ==> d.msg == m)
  {
    hide Inv, Send, Apply, Carries, Run;
    SentLies(s, m, behind);
    LastTaken(Send(s, m, behind).0, ops);
    RunFirst(s, m, behind, ops);
  }

  lemma LastTaken(s: State, ops: seq<Op>)
    requires 0 < |ops| == |s.msgs| && forall i :: 0 <= i < |ops| ==> ops[i].Take?
    ensures forall op :: op in ops ==> Legal(s.kind, op)
    ensures var s1 := Run(s, ops);
      && s1.msgs == [] && |s1.got| == |s.got| + |ops|
      && s1.got[|s1.got| - 1] == Delivery(ops[|ops| - 1].w.id, s.msgs[|ops| - 1])
  {
    TakesDrain(s, ops);
    hide Run;
    var s1 := Run(s, ops);
    assert s1.got[|s.got| + (|ops| - 1)] == Delivery(ops[|ops| - 1].w.id, s.msgs[|ops| - 1]);
  }

  lemma SentLies(s: State, m: Msg, behind: seq<byte>)
    requires Inv(s) && s.waiters == [] && Legal(s.kind, Put(m, behind)) && Send(s, m, behind).1 == Ok
    ensures var s1 := Send(s, m, behind).0;
      && s1.kind == s.kind && s1.got == s.got && |s1.msgs| == |s.msgs| + 1
      && Carries(s.kind, m, s1.msgs[|s.msgs|]) && (s.kind.Dyn? ==> s1.msgs[|s.msgs|] == m)
  {
    hide PushStatus, Space, Msgs;
    assert (m + behind)[..|m|] == m;
  }

  lemma RunFirst(s: State, m: Msg, behind: seq<byte>, ops: seq<Op>)
    requires Legal(s.kind, Put(m, behind)) && forall op :: op in ops ==> Legal(s.kind, op)
    ensures forall op :: op in [Put(m, behind)] + ops ==> Legal(s.kind, op)
    ensures Run(s, [Put(m, behind)] + ops) == Run(Apply(s, Put(m, behind)), ops) && Apply(s, Put(m, behind)) == Send(s, m, behind).0
  {
    hide Send, Readable;
    assert ([Put(m, behind)] + ops)[1..] == ops;
  }

  // ---- short messages ------------------------------------------------------------------------

  /** A message that goes into the ring of a queue of fixed-size messages fills a block. */
  predicate Whole(s: State, op: Op)
    requires Legal(s.kind, op)
  {
    op.Put? && s.kind.Fix? && s.waiters == [] && Send(s, op.m, op.behind).1 == Ok ==> |op.m| == s.kind.blk
  }

  predicate AllWhole(s: State, ops: seq<Op>)
    requires forall op :: op in ops ==> Legal(s.kind, op)
    decreases |ops|
  {
    ops == [] || (Whole(s, ops[0]) && AllWhole(Apply(s, ops[0]), ops[1..]))
  }

  /** An accepted message will be received as it was sent exactly if records vary in size,
      or it fills a block, or a receiver was waiting for it. */
  lemma ReceivedAsSent(s: State, m: Msg, behind: seq<byte>)
    requires Inv(s) && Legal(s.kind, Put(m, behind)) && Send(s, m, behind).1 == Ok
    ensures
      var s1 := Send(s, m, behind).0;
      && s1.sent == s.sent + [m] && |s1.due| == |s.due| + 1
      && (s1.due[|s.due|] == m <==> s.kind.Dyn? || |m| == s.kind.blk || s.waiters != [])
  {
    assert (m + behind)[..|m|] == m;
  }

  lemma {:induction false} StaysApart(s: State, ops: seq<Op>, i: nat)
    requires Inv(s) && (forall op :: op in ops ==> Legal(s.kind, op)) && i < |s.sent|
    ensures var r := Run(s, ops); i < |r.sent| && i < |r.due| && r.sent[i] == s.sent[i] && r.due[i] == s.due[i]
    decreases |ops|
  {
    if ops != [] {
      assert ops[0] in ops;
      var s1 := Apply(s, ops[0]);
      ApplyInv(s, ops[0]);
      Extends(s, ops[0]);
      StaysApart(s1, ops[1..], i);
    }
  }

  lemma Extends(s: State, op: Op)
    requires Legal(s.kind, op)
    ensures s.sent <= Apply(s, op).sent && s.due <= Apply(s, op).due
  {
  }

  /** Over a run, all messages arrive as they were sent exactly if each that goes into the
      ring of a queue of fixed-size messages fills a block. */
  lemma {:induction false} RunFaithful(s: State, ops: seq<Op>)
    requires Inv(s) && s.due == s.sent && forall op :: op in ops ==> Legal(s.kind, op)
    ensures Run(s, ops).due == Run(s, ops).sent <==> AllWhole(s, ops)
    decreases |ops|
  {
    if ops != [] {
      assert ops[0] in ops;
      var op, s1 := ops[0], Apply(s, ops[0]);
      ApplyInv(s, op);
      if op.Put? && Send(s, op.m, op.behind).1 == Ok { ReceivedAsSent(s, op.m, op.behind); }
      if s1.due == s1.sent {
        RunFaithful(s1, ops[1..]);
      } else {
        StaysApart(s1, ops[1..], |s.due|);
      }
    }
  }

  /** Three bytes sent through a queue of two blocks of eight: the queue is full after two
      messages, and the first is received with five bytes of what lay behind it. */
  lemma ShortMessages(m: Msg, behind: seq<byte>, w: Waiter)
    requires |m| == 3 && |behind| == 5
    ensures
      var s := Empty(Fix(8), 16, 8);
      var s2 := Run(s, [Put(m, behind), Put(m, behind)]);
      && Send(s2, m, behind) == (s2, QueueFull)
      && Recv(s2, w, true, false).0.got == [Delivery(w.id, m + behind)]
  {
    var s := Empty(Fix(8), 16, 8);
    var op := Put(m, behind);
    var r := m + behind;
    assert r[..8] == r;
    var s1 := Send(s, m, behind).0;
    assert s1.msgs == [r] && [r][1..] == [];
    var s2 := Send(s1, m, behind).0;
    assert s2.msgs == [r, r] && [r, r][1..] == [r];
    assert [op, op][1..] == [op] && [op][1..] == [];
    assert Run(s2, []) == s2;
    assert Run(s1, [op]) == Run(s2, []);
    assert Run(s, [op, op]) == Run(s1, [op]);
  }

  lemma {:induction false} MsgsLength(got: seq<Delivery>)
    ensures |Msgs(got)| == |got|
  {
    if got != [] { MsgsLength(got[1..]); }
  }

  /** A waiting receiver of the best priority gets the next message, before anything that is sent later. */
  lemma SendReachesBest(s: State, m: Msg, behind: seq<byte>)
    requires Inv(s) && s.waiters != [] && 0 < |m| <= s.maxMsg && Readable(s.kind, m + behind, |m|)
    ensures var (s1, r) := Send(s, m, behind);
      && r == Ok && s1.msgs == [] && s1.got == s.got + [Delivery(s.waiters[0].id, m)]
      && forall x :: x in s.waiters ==> s.waiters[0].prio <= x.prio
  {
  }
}

/** The queue as the kernel keeps it. */
module BufQueueImpl {
  import opened Bytes
  import opened RingStream
  import opened RingImpl
  import opened BufQueueSpec

  class BufQueue {
    const ring: Ring
    const maxMsg: nat
    var curNum: nat
    var peakNum: nat
    var minFree: nat
    var waiters: seq<Waiter>
    ghost var sent: seq<Msg>
    ghost var due: seq<Msg>
    ghost var got: seq<Delivery>

    ghost function S(): State
      reads this, ring
    {
      State(ring.kind, ring.buf.Length, maxMsg, ring.msgs, waiters, sent, due, got)
    }

    ghost predicate Valid()
      reads this, ring, ring.buf
    {
      && ring.Valid() && curNum == |ring.msgs| && Inv(S())
      && (ring.kind.Fix? ==> maxMsg == ring.kind.blk)
      && (forall n: nat :: n <= maxMsg ==> !Overflows(ring.kind, n))
      && curNum <= peakNum && minFree <= ring.freesize
    }

    /** `buf_queue_create` with legal sizes. */
    constructor (buf: array<byte>, kind: Kind, maxMsg: nat)
      requires Sized(kind, buf.Length) && maxMsg > 0 && buf.Length > 0
      requires (kind.Fix? ==> maxMsg == kind.blk) && (kind.Dyn? && kind.width == 4 ==> maxMsg <= UINT32_MAX - 4)
      ensures Valid() && S() == Empty(kind, buf.Length, maxMsg)
    {
      ring := new Ring(buf, kind);
      this.maxMsg := maxMsg;
      curNum, peakNum, waiters := 0, 0, [];
      sent, due, got := [], [], [];
      minFree := buf.Length;
    }

    /** `buf_queue_send` of the message m, with the bytes of memory behind it. */
    method Send(m: Msg, behind: seq<byte>) returns (r: Result)
      requires Valid() && Readable(ring.kind, m + behind, |m|)
      modifies this, ring, ring.buf
      ensures Valid() && (S(), r) == BufQueueSpec.Send(old(S()), m, behind)
      ensures r == Ok && old(waiters) == [] ==> peakNum >= curNum && minFree <= ring.freesize
    {
      hide Inv, Space, Flat, Stream, Ring.Valid, PushStatus;
      ApplyInv(S(), Put(m, behind));
      if |m| > maxMsg { return SizeOverflow; }
      if |m| == 0 { return InvalidParam; }
      if waiters == [] {
        r := Store(m, behind);
      } else {
        got := got + [Delivery(waiters[0].id, m)];
        sent, due := sent + [m], due + [m];
        waiters := waiters[1..];
        r := Ok;
      }
    }

    /** Nobody waits: the message goes into the ring. */
    method Store(m: Msg, behind: seq<byte>) returns (r: Result)
      requires Valid() && waiters == [] && 0 < |m| <= maxMsg && Readable(ring.kind, m + behind, |m|)
      modifies this, ring, ring.buf
      ensures Valid() && (S(), r) == BufQueueSpec.Send(old(S()), m, behind)
      ensures r == Ok ==> peakNum >= curNum && minFree <= ring.freesize
    {
      hide Inv, Space, Flat, Stream, PushStatus;
      ApplyInv(S(), Put(m, behind));
      ring.FreeIsExact();
      var err := ring.Push(m + behind, |m|);
      hide Ring.Valid;
      if err != Success {
        r := if err == Full then QueueFull else InvalidParam;
        return;
      }
      curNum := curNum + 1;
      if peakNum < curNum { peakNum := curNum; }
      if minFree > ring.freesize { minFree := ring.freesize; }
      sent, due := sent + [m], due + [Stored(ring.kind, m + behind, |m|)];
      r := Ok;
    }

    /** `krhino_buf_queue_recv`, up to the point where the task blocks. */
    method Recv(w: Waiter, wait: bool, locked: bool) returns (r: Result, m: Msg)
      requires Valid()
      modifies this, ring
      ensures Valid() && (S(), r) == BufQueueSpec.Recv(old(S()), w, wait, locked)
      ensures r == Ok ==> old(S()).msgs == [m] + S().msgs
      ensures r != Ok ==> m == []
      ensures old(S()).msgs != [] ==> r == Ok
      ensures old(S()).msgs == [] ==> r == if !wait then NoPendWait else if locked then SchedDisable else Blocked
    {
      ghost var s := S();
      ApplyInv(s, Take(w, wait, locked));
      hide Inv, Space, Flat, Stream, Ring.Valid;
      m := [];
      if curNum > 0 {
        m := ring.Pop();
        curNum := curNum - 1;
        got := got + [Delivery(w.id, m)];
        return Ok, m;
      }
      if !wait { return NoPendWait, m; }
      if locked { return SchedDisable, m; }
      waiters := Enqueue(waiters, w);
      r := Blocked;
    }

    /** A waiting receiver times out, is aborted or deleted. */
    method GiveUp(id: nat)
      requires Valid()
      modifies `waiters
      ensures Valid() && S() == Leave(old(S()), id)
    {
      ApplyInv(S(), Op.GiveUp(id));
      hide Inv, Ring.Valid;
      waiters := Drop(waiters, id);
    }

    /** `krhino_buf_queue_flush`: what was not delivered is forgotten. */
    method Flush()
      requires Valid()
      modifies this, ring
      ensures Valid() && S().msgs == [] && waiters == old(waiters) && got == old(got) && sent == due == Msgs(got)
    {
      ring.Reset();
      curNum, peakNum := 0, 0;
      minFree := ring.freesize;
      sent, due := Msgs(got), Msgs(got);
    }
  }
}
