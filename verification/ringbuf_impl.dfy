/** The ring buffer: head and tail chase each other through a byte array, and
    records may be split at its end. It is a queue of byte strings. */
module RingImpl {
  import opened Multiples
  import opened Bytes
  import opened RingStream

  /** Capacities and message lengths for which the buffer is a queue. */
  predicate Sized(t: Kind, c: nat) {
    match t
    case Fix(blk) => blk > 0 && c % blk == 0
    case Dyn(w) => (w == 4 || w == 8) && c <= UINT32_MAX
  }

  /** Where the tail is, given the head and the bytes in use. */
  predicate Placed(c: nat, head: nat, used: nat, tail: nat) {
    head <= c && tail <= c && used <= c && (tail == head + used || tail + c == head + used)
  }

  predicate OnBlock(t: Kind, p: nat) { t.Fix? && t.blk > 0 ==> p % t.blk == 0 }

  class Ring {
    const kind: Kind
    const buf: array<byte>
    var head: nat
    var tail: nat
    var freesize: nat
    /** The messages in the buffer, oldest first. */
    ghost var msgs: seq<seq<byte>>

    ghost predicate Valid()
      reads this, buf
    {
      var c := buf.Length;
      && Sized(kind, c) && freesize <= c && Placed(c, head, c - freesize, tail)
      && OnBlock(kind, head) && OnBlock(kind, tail) && OnBlock(kind, freesize)
      && Stream(buf[..], head, c - freesize) == Flat(kind, msgs)
      && (forall m :: m in msgs ==> Fits(kind, m))
    }

    /** `ringbuf_init` */
    constructor (buf: array<byte>, kind: Kind)
      requires Sized(kind, buf.Length)
      ensures Valid() && msgs == [] && this.buf == buf && this.kind == kind
    {
      this.buf, this.kind := buf, kind;
      head, tail, freesize := 0, 0, buf.Length;
      msgs := [];
    }

    /** `ringbuf_reset` */
    method Reset()
      requires Sized(kind, buf.Length)
      modifies this
      ensures Valid() && msgs == [] && freesize == buf.Length
    {
      head, tail, freesize := 0, 0, buf.Length;
      msgs := [];
    }

    /** memcpy into the buffer. */
    method Put(at: nat, d: seq<byte>)
      requires at + |d| <= buf.Length
      modifies buf
      ensures buf[..] == old(buf[..at]) + d + old(buf[at + |d|..])
    {
      forall i | at <= i < at + |d| { buf[i] := d[i - at]; }
    }

    /** The free size is the capacity minus what the messages take. */
    lemma FreeIsExact()
      requires Valid()
      ensures freesize == buf.Length - Space(kind, msgs)
    {
      FlatSpace(kind, msgs);
    }

    /** `ringbuf_push` of the message of length len at the start of data. */
    method Push(data: seq<byte>, len: nat) returns (st: Status)
      requires Valid() && Readable(kind, data, len) && !Overflows(kind, len)
      modifies this, buf
      ensures Valid() && st == PushStatus(kind, old(freesize), len)
      ensures st == Success ==> msgs == old(msgs) + [Stored(kind, data, len)] && freesize == old(freesize) - Cost(kind, len)
      ensures st != Success ==> msgs == old(msgs) && buf[..] == old(buf[..]) && unchanged(this)
    {
      hide Flat, Stream, Sized, Space;
      match kind
      case Fix(blk) => st := PushFix(data[..blk]);
      case Dyn(w) => st := PushDyn(data[..len]);
    }

    method PushFix(data: seq<byte>) returns (st: Status)
      requires Valid() && kind.Fix? && Fits(kind, data)
      modifies this, buf
      ensures Valid() && st == PushStatus(kind, old(freesize), |data|)
      ensures st == Success ==> msgs == old(msgs) + [data] && freesize == old(freesize) - |data|
      ensures st != Success ==> msgs == old(msgs) && buf[..] == old(buf[..]) && unchanged(this)
    {
      hide Flat, Ahead, Space;
      var blk := kind.blk;
      if freesize < blk { return Full; }
      assert Ahead() == Flat(kind, msgs) by { AheadIs(); }
      if tail == buf.Length { tail := 0; }
      RoomForBlock(blk, buf.Length, head, buf.Length - freesize, tail);
      Add(data);
      FlatAppend(kind, msgs, data);
      OnNext(blk, tail - blk);
      OnPrevious(blk, freesize);
      AheadIs();
      msgs := msgs + [data];
      st := Success;
    }

    lemma AheadIs()
      requires head <= buf.Length && freesize <= buf.Length
      ensures Ahead() == Stream(buf[..], head, buf.Length - freesize)
    {
    }

    method PushDyn(data: seq<byte>) returns (st: Status)
      requires Valid() && kind.Dyn? && !Overflows(kind, |data|)
      modifies this, buf
      ensures Valid() && st == PushStatus(kind, old(freesize), |data|)
      ensures st == Success ==> msgs == old(msgs) + [data] && freesize == old(freesize) - Cost(kind, |data|)
      ensures st != Success ==> msgs == old(msgs) && buf[..] == old(buf[..]) && unchanged(this)
    {
      hide Flat, Stream, Encode, Pow256, Space, Wrap, Overflows;
      var w, len := kind.width, |data|;
      if len == 0 || len >= UINT32_MAX { return InvParam; }
      NoOverflow(w, len);
      if freesize < (w + len) % Pow256(w) { return Full; }
      var cLen := Encode(len, w);
      if tail == buf.Length { tail := 0; }
      PutSplit(cLen);
      if tail == buf.Length { tail := 0; }
      PutSplit(data);
      FlatAppend(kind, msgs, data);
      assert Flat(kind, msgs) + cLen + data == Flat(kind, msgs) + Rec(kind, data);
      msgs := msgs + [data];
      st := Success;
    }

    /** What the head cursor sees. */
    ghost function Ahead(): (s: seq<byte>)
      reads `head, `freesize, buf
      requires head <= buf.Length && freesize <= buf.Length
      ensures |s| == buf.Length - freesize
    {
      Stream(buf[..], head, buf.Length - freesize)
    }

    ghost predicate Standing()
      reads this
    {
      freesize <= buf.Length && Placed(buf.Length, head, buf.Length - freesize, tail)
    }

    /** memcpy to the tail, which advances. */
    method Add(d: seq<byte>)
      requires Standing() && tail < buf.Length && |d| <= freesize && tail + |d| <= buf.Length
      modifies buf, `tail, `freesize
      ensures Standing() && tail == old(tail) + |d| && freesize == old(freesize) - |d|
      ensures Ahead() == old(Ahead()) + d
    {
      hide Stream;
      ghost var b := buf[..];
      Put(tail, d);
      Append(b, buf[..], head, buf.Length - freesize, d, tail);
      tail := tail + |d|;
      freesize := freesize - |d|;
    }

    /** Copy to the tail, in two pieces if the end is in the way: the prefix and the
        payload of a record are each written like this. */
    method PutSplit(d: seq<byte>)
      requires Standing() && tail < buf.Length && |d| <= freesize
      modifies buf, `tail, `freesize
      ensures Standing() && freesize == old(freesize) - |d| && Ahead() == old(Ahead()) + d
    {
      hide Ahead;
      var split := buf.Length - tail;
      var rest := d;
      if tail >= head && split < |d| && split > 0 {
        ghost var s := Ahead();
        Add(d[..split]);
        rest := d[split..];
        tail := 0;
        assert s + d[..split] + rest == s + d by { assert d == d[..split] + rest; }
      }
      Add(rest);
    }

    /** `ringbuf_pop` of a buffer that is not empty. */
    method Pop() returns (data: seq<byte>)
      requires Valid() && msgs != []
      modifies this
      ensures Valid() && old(msgs) == [data] + msgs && freesize == old(freesize) + Cost(kind, |data|)
    {
      hide Flat, Stream, Sized, Space;
      match kind
      case Fix(blk) => data := PopFix();
      case Dyn(w) => data := PopDyn();
    }

    method PopFix() returns (data: seq<byte>)
      requires Valid() && msgs != [] && kind.Fix?
      modifies this
      ensures Valid() && old(msgs) == [data] + msgs && freesize == old(freesize) + Cost(kind, |data|)
    {
      hide Flat, Stream;
      var blk := kind.blk;
      FlatFirst(kind, msgs);
      assert msgs[0] in msgs;
      Turn();
      BlockAhead(blk, buf.Length, head);
      data := Get(blk);
      OnNext(blk, head - blk);
      OnNext(blk, freesize - blk);
      msgs := msgs[1..];
    }

    method PopDyn() returns (data: seq<byte>)
      requires Valid() && msgs != [] && kind.Dyn?
      modifies this
      ensures Valid() && old(msgs) == [data] + msgs && freesize == old(freesize) + Cost(kind, |data|)
    {
      hide Flat, Stream, Encode, Decode, Pow256;
      var w := kind.width;
      ghost var m, flat := msgs[0], Flat(kind, msgs);
      FlatFirst(kind, msgs);
      PrefixTells(w, |m|);
      assert m in msgs;
      var cLen := TakeLength();
      assert cLen == Encode(|m|, w) by { assert flat[..w] == Encode(|m|, w); }
      var len := Decode(cLen);
      assert flat[w..] == m + Flat(kind, msgs[1..]) && Ahead() == flat[w..];
      data := TakePayload(len);
      assert |data| == |m|;
      assert data == flat[w..][..|m|] == m;
      assert flat[w..][|m|..] == Flat(kind, msgs[1..]);
      assert freesize == old(freesize) + w + |m|;
      assert Cost(kind, |m|) == w + |m|;
      msgs := msgs[1..];
    }

    /** memcpy from the head, which advances. */
    method Get(n: nat) returns (d: seq<byte>)
      requires Standing() && n <= buf.Length - freesize && head + n <= buf.Length
      modifies `head, `freesize
      ensures Standing() && head == old(head) + n && freesize == old(freesize) + n
      ensures d == old(Ahead())[..n] && Ahead() == old(Ahead())[n..]
    {
      Take(buf[..], head, buf.Length - freesize, n);
      d := buf[head..head + n];
      head := head + n;
      freesize := freesize + n;
    }

    /** A head that rests on the end goes to the beginning. */
    method Turn()
      requires Standing() && freesize < buf.Length
      modifies `head
      ensures Standing() && Ahead() == old(Ahead()) && head == if old(head) == buf.Length then 0 else old(head)
    {
      if head == buf.Length {
        EndIsStart(buf[..], buf.Length - freesize);
        head := 0;
      }
    }

    /** The payload, which may be split at the end. */
    method TakePayload(size: nat) returns (data: seq<byte>)
      requires Standing() && 0 < size <= buf.Length - freesize < buf.Length
      modifies `head, `freesize
      ensures Standing() && freesize == old(freesize) + size
      ensures data == old(Ahead())[..size] && Ahead() == old(Ahead())[size..]
    {
      hide Ahead;
      ghost var s := Ahead();
      Turn();
      var len := size;
      data := [];
      var split := buf.Length - head;
      if head > tail && split < len {
        Slices(s, split, len - split);
        data := Get(split);
        Turn();
        len := len - split;
      }
      Slices(s, 0, len);
      var d := Get(len);
      data := data + d;
    }

    /** The bytes of the length prefix, which may be split at the end. */
    method TakeLength() returns (cLen: seq<byte>)
      requires Standing() && kind.Dyn? && 0 < kind.width <= buf.Length - freesize
      modifies `head, `freesize
      ensures Standing() && freesize == old(freesize) + kind.width
      ensures cLen == old(Ahead())[..kind.width] && Ahead() == old(Ahead())[kind.width..]
    {
      hide Ahead;
      var w := kind.width;
      ghost var s := Ahead();
      Turn();
      cLen := [];
      var split := buf.Length - head;
      if split < w && split > 0 {
        cLen := Get(split);
        Turn();
      } else {
        split := 0;
      }
      Slices(s, split, w - split);
      if w - split > 0 {
        var c := Get(w - split);
        cLen := cLen + c;
      }
    }

    /** `ringbuf_is_full`: no message at all can be pushed. */
    method IsFull() returns (full: bool)
      requires Valid()
      ensures full <==> forall m: seq<byte> :: Fits(kind, m) ==> freesize < Cost(kind, |m|)
    {
      if kind.Dyn? && freesize < kind.width + 1 { return true; }
      if kind.Fix? && freesize < kind.blk { return true; }
      ghost var m: seq<byte> := if kind.Fix? then seq(kind.blk, _ => 0) else [0];
      assert Fits(kind, m);
      full := false;
    }

    /** `ringbuf_is_empty` */
    method IsEmpty() returns (empty: bool)
      requires Valid()
      ensures empty <==> msgs == []
    {
      FlatSpace(kind, msgs);
      if msgs != [] { assert msgs[0] in msgs; }
      empty := freesize == buf.Length;
    }
  }

  // ---- arithmetic ------------------------------------------------------------------------

  lemma NoOverflow(w: nat, len: nat)
    requires (w == 4 || w == 8) && len < UINT32_MAX && !Overflows(Dyn(w), len)
    ensures (w + len) % Pow256(w) == w + len && len < Pow256(w)
  {
    Pow256Is();
  }

  lemma OnNext(blk: nat, p: nat)
    requires blk > 0 && p % blk == 0
    ensures (p + blk) % blk == 0
  {
    AddMod(p, blk);
  }

  lemma OnPrevious(blk: nat, p: nat)
    requires blk > 0 && (p + blk) % blk == 0
    ensures p % blk == 0
  {
    AddMod(p, blk);
  }

  lemma RoomForBlock(blk: nat, c: nat, head: nat, used: nat, tail: nat)
    requires blk > 0 && c % blk == 0 && tail % blk == 0 && tail < c
    ensures tail + blk <= c
  {
    Strided(blk, tail, c);
  }

  lemma BlockAhead(blk: nat, c: nat, head: nat)
    requires blk > 0 && c % blk == 0 && head % blk == 0 && head < c
    ensures head + blk <= c
  {
    Strided(blk, head, c);
  }

  lemma Slices(s: seq<byte>, a: nat, n: nat)
    requires a + n <= |s|
    ensures s[..a] + s[a..][..n] == s[..a + n] && s[a..][n..] == s[a + n..] && s[0..] == s && s[..0] == []
  {
  }

  lemma FlatFirst(t: Kind, msgs: seq<seq<byte>>)
    requires msgs != []
    ensures Flat(t, msgs) == Rec(t, msgs[0]) + Flat(t, msgs[1..])
    ensures msgs == [msgs[0]] + msgs[1..]
  {
    hide Rec;
  }

  /** The prefix of a record tells its length. */
  lemma PrefixTells(w: nat, n: nat)
    requires (w == 4 || w == 8) && n < UINT32_MAX
    ensures Decode(Encode(n, w)) == n
  {
    Pow256Is();
    DecodeEncode(n, w);
  }
}
