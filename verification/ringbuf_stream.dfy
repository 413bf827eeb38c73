/** A circular byte array read as a stream, and records laid out in a stream. */
module RingStream {
  import opened Bytes

  // ---- numbers as bytes ---------------------------------------------------------------

  function Pow256(w: nat): (p: nat)
    ensures p > 0
  {
    if w == 0 then 1 else 256 * Pow256(w - 1)
  }

  /** The w bytes of a size_t in memory, lowest first. */
  function Encode(n: nat, w: nat): (s: seq<byte>)
    ensures |s| == w
  {
    if w == 0 then [] else [n % 256] + Encode(n / 256, w - 1)
  }

  function Decode(s: seq<byte>): nat {
    if s == [] then 0 else s[0] + 256 * Decode(s[1..])
  }

  lemma {:induction false} DecodeEncode(n: nat, w: nat)
    requires n < Pow256(w)
    ensures Decode(Encode(n, w)) == n
  {
    if w > 0 { DecodeEncode(n / 256, w - 1); }
  }

  // ---- the circle -----------------------------------------------------------------------

  /** Index of the cell i places from the start, one lap ahead at most. */
  function Wrap(i: nat, c: nat): nat { if i < c then i else i - c }

  /** The n bytes from head on, going round. */
  function Stream(b: seq<byte>, head: nat, n: nat): (s: seq<byte>)
    requires head <= |b| && n <= |b|
    ensures |s| == n && forall k :: 0 <= k < n ==> s[k] == b[Wrap(head + k, |b|)]
  {
    seq(n, k requires 0 <= k < n => b[Wrap(head + k, |b|)])
  }

  /** A cursor resting on the end is one at the beginning. */
  lemma EndIsStart(b: seq<byte>, n: nat)
    requires n <= |b|
    ensures Stream(b, |b|, n) == Stream(b, 0, n)
  {
    assert forall k :: 0 <= k < n ==> Stream(b, |b|, n)[k] == Stream(b, 0, n)[k];
  }

  /** Bytes written behind the stream continue it. */
  lemma Append(b: seq<byte>, b1: seq<byte>, head: nat, used: nat, d: seq<byte>, at: nat)
    requires head <= |b| && used + |d| <= |b| && at + |d| <= |b| && (d != [] ==> at == Wrap(head + used, |b|))
    requires b1 == b[..at] + d + b[at + |d|..]
    ensures Stream(b1, head, used + |d|) == Stream(b, head, used) + d
  {
    var s1, s := Stream(b1, head, used + |d|), Stream(b, head, used) + d;
    forall k | 0 <= k < used + |d| ensures s1[k] == s[k] {
      if k < used {
        if d == [] { assert b1 == b; } else { Distinct(head, used, |d|, |b|, k); }
        assert s[k] == b[Wrap(head + k, |b|)];
      } else {
        assert s[k] == d[k - used] && Wrap(head + k, |b|) == at + k - used;
      }
    }
  }

  /** The cells of the stream and those behind it are different cells. */
  lemma Distinct(head: nat, used: nat, n: nat, c: nat, k: nat)
    requires head <= c && used + n <= c && n > 0 && k < used && Wrap(head + used, c) + n <= c
    ensures var x, at := Wrap(head + k, c), Wrap(head + used, c); x < at || at + n <= x
  {
  }

  /** Bytes read off the front. */
  lemma Take(b: seq<byte>, head: nat, used: nat, n: nat)
    requires head <= |b| && n <= used <= |b| && head + n <= |b|
    ensures b[head..head + n] == Stream(b, head, used)[..n]
    ensures Stream(b, head + n, used - n) == Stream(b, head, used)[n..]
  {
    var s := Stream(b, head, used);
    assert forall k :: 0 <= k < n ==> b[head..head + n][k] == s[..n][k];
    assert forall k :: 0 <= k < used - n ==> Stream(b, head + n, used - n)[k] == s[n..][k];
  }

  // ---- records -----------------------------------------------------------------------------

  /** RINGBUF_TYPE_FIX, or RINGBUF_TYPE_DYN with the width of size_t. */
  datatype Kind = Fix(blk: nat) | Dyn(width: nat)

  /** A message as it lies in the buffer. */
  function Rec(t: Kind, m: seq<byte>): seq<byte> {
    match t
    case Fix(_) => m
    case Dyn(w) => Encode(|m|, w) + m
  }

  function Flat(t: Kind, msgs: seq<seq<byte>>): seq<byte> {
    if msgs == [] then [] else Rec(t, msgs[0]) + Flat(t, msgs[1..])
  }

  /** The memory a push reads reaches far enough: a fixed-size push reads a whole block
      whatever the length of the message. */
  predicate Readable(t: Kind, data: seq<byte>, len: nat) { len <= |data| && (t.Fix? ==> t.blk <= |data|) }

  /** What is stored of a message of length len at the start of data. */
  function Stored(t: Kind, data: seq<byte>, len: nat): seq<byte>
    requires Readable(t, data, len)
  {
    if t.Fix? then data[..t.blk] else data[..len]
  }

  /** Records of a fixed size are all of that size. */
  predicate Fits(t: Kind, m: seq<byte>) {
    match t
    case Fix(blk) => |m| == blk
    case Dyn(_) => 0 < |m| < UINT32_MAX
  }

  /** Bytes the messages take: a block each, or a length prefix and their own. */
  function Space(t: Kind, msgs: seq<seq<byte>>): nat {
    if msgs == [] then 0 else Cost(t, |msgs[0]|) + Space(t, msgs[1..])
  }

  function Cost(t: Kind, len: nat): nat {
    match t
    case Fix(blk) => blk
    case Dyn(w) => w + len
  }

  lemma {:induction false} FlatSpace(t: Kind, msgs: seq<seq<byte>>)
    requires forall m :: m in msgs ==> Fits(t, m)
    ensures |Flat(t, msgs)| == Space(t, msgs)
  {
    if msgs != [] {
      assert msgs[0] in msgs;
      FlatSpace(t, msgs[1..]);
    }
  }

  lemma {:induction false} FlatAppend(t: Kind, msgs: seq<seq<byte>>, m: seq<byte>)
    ensures Flat(t, msgs + [m]) == Flat(t, msgs) + Rec(t, m)
    ensures Space(t, msgs + [m]) == Space(t, msgs) + Cost(t, |m|)
  {
    if msgs == [] {
      assert (msgs + [m])[1..] == [];
    } else {
      FlatAppend(t, msgs[1..], m);
      assert (msgs + [m])[1..] == msgs[1..] + [m];
    }
  }

  // ---- when a message is accepted ------------------------------------------------------------

  datatype Status = Success | InvParam | Full

  const UINT32_MAX: nat := 0xFFFF_FFFF

  /** The tests at the head of `ringbuf_push`, in size_t arithmetic. */
  function PushStatus(t: Kind, freesize: nat, len: nat): Status {
    match t
    case Fix(blk) => if freesize < blk then Full else Success
    case Dyn(w) =>
      if len == 0 || len >= UINT32_MAX then InvParam
      else if freesize < (w + len) % Pow256(w) then Full
      else Success
  }

  /** Lengths for which adding the prefix overflows a 32-bit size_t. */
  predicate Overflows(t: Kind, len: nat) { t.Dyn? && t.width == 4 && UINT32_MAX - 4 < len < UINT32_MAX }

  lemma Pow256Is()
    ensures Pow256(4) == 0x1_0000_0000 && Pow256(8) == 0x1_0000_0000_0000_0000
  {
    assert Pow256(2) == 0x1_0000 && Pow256(3) == 0x100_0000;
    assert Pow256(5) == 0x100_0000_0000 && Pow256(6) == 0x1_0000_0000_0000 && Pow256(7) == 0x100_0000_0000_0000;
  }

  /** A message with a legal length is refused exactly when it does not fit; the one
      exception is a length so close to 2^32 that the prefix makes a 32-bit sum wrap. */
  lemma FullIsExact(w: nat, freesize: nat, len: nat)
    requires (w == 4 || w == 8) && 0 < len < UINT32_MAX && freesize <= UINT32_MAX
    ensures (PushStatus(Dyn(w), freesize, len) == Full <==> freesize < Cost(Dyn(w), len))
      <==> !(Overflows(Dyn(w), len) && freesize >= w + len - Pow256(w))
  {
    Pow256Is();
    hide Pow256;
    if w == 4 && len >= UINT32_MAX - 3 {
      assert (w + len) % Pow256(w) == w + len - Pow256(w);
    } else {
      assert (w + len) % Pow256(w) == w + len;
    }
  }
}
