/** JSON Pointers: from a node to its pointer and back. A node is named by the child
    numbers on the way to it from the root. */
module JsonPointer {
  import opened Options
  import opened Bytes
  import opened JsonParse
  import opened JsonText

  type Path = seq<nat>

  const TILDE: byte := 126
  const ZERO: byte := 48
  const ONE: byte := 49

  /** tolower, of ASCII letters. */
  function LowerChar(c: byte): byte { if 65 <= c <= 90 then c + 32 else c }

  function Lower(s: Text): Text { if s == [] then [] else [LowerChar(s[0])] + Lower(s[1..]) }

  // ---- tokens ---------------------------------------------------------------------------

  /** `cJSONUtils_PointerEncodedstrcpy`, section 3 of RFC 6901. */
  function EncodeToken(s: Text): Text {
    if s == [] then []
    else (if s[0] == SLASH then [TILDE, ONE] else if s[0] == TILDE then [TILDE, ZERO] else [s[0]]) + EncodeToken(s[1..])
  }

  lemma {:induction false} EncodeJoins(a: Text, b: Text)
    ensures EncodeToken(a + b) == EncodeToken(a) + EncodeToken(b)
  {
    if a == [] {
      assert a + b == b;
    } else {
      hide EncodeToken, First;
      EncodeJoins(a[1..], b);
      assert (a + b)[1..] == a[1..] + b;
      EncodeFirst(a);
      EncodeFirst(a + b);
      Associate(First(a[0]), EncodeToken(a[1..]), EncodeToken(b));
    }
  }

  lemma Associate(a: Text, b: Text, c: Text)
    ensures a + (b + c) == a + b + c
  {
  }

  function First(c: byte): Text { if c == SLASH then [TILDE, ONE] else if c == TILDE then [TILDE, ZERO] else [c] }

  lemma EncodeFirst(s: Text)
    requires s != []
    ensures EncodeToken(s) == First(s[0]) + EncodeToken(s[1..])
  {
  }

  /** A token is its name with `~0` for each tilde and `~1` for each slash, section 4 of
      RFC 6901. */
  lemma EncodeIs(a: Text, c: byte, b: Text)
    ensures EncodeToken([]) == []
    ensures EncodeToken(a + [c] + b) == EncodeToken(a)
      + (if c == '~' as int then ['~' as int, '0' as int] else if c == '/' as int then ['~' as int, '1' as int] else [c]) + EncodeToken(b)
  {
    EncodeJoins(a + [c], b);
    EncodeJoins(a, [c]);
    assert [c][1..] == [];
    assert EncodeToken([c]) == (if c == SLASH then [TILDE, ONE] else if c == TILDE then [TILDE, ZERO] else [c]) + EncodeToken([]);
  }

  /** Names are compared with A to Z as a to z. */
  lemma {:induction false} LowerIs(s: Text)
    ensures |Lower(s)| == |s|
    ensures forall i :: 0 <= i < |s| ==> Lower(s)[i] == if 'A' as int <= s[i] <= 'Z' as int then s[i] - 'A' as int + 'a' as int else s[i]
  {
    if s != [] { LowerIs(s[1..]); }
  }

  /** `cJSONUtils_InplaceDecodePointerString`: after a tilde, whatever is not 0 means a slash. */
  function DecodeToken(s: Text): Text {
    if s == [] then []
    else if s[0] != TILDE then [s[0]] + DecodeToken(s[1..])
    else if |s| == 1 then [SLASH]
    else [if s[1] == ZERO then TILDE else SLASH] + DecodeToken(s[2..])
  }

  lemma {:induction false} DecodeEncode(s: Text)
    ensures DecodeToken(EncodeToken(s)) == s
  {
    if s != [] {
      DecodeEncode(s[1..]);
      var t := EncodeToken(s);
      assert t[if s[0] == SLASH || s[0] == TILDE then 2 else 1..] == EncodeToken(s[1..]);
      assert s == [s[0]] + s[1..];
    }
  }

  lemma {:induction false} EncodedHasNoSlash(s: Text)
    ensures forall i :: 0 <= i < |EncodeToken(s)| ==> EncodeToken(s)[i] != SLASH
  {
    if s != [] { EncodedHasNoSlash(s[1..]); }
  }

  /** `cJSONUtils_Pstrcasecmp`, true for a match: the name a against the token of s at p. */
  predicate Match(a: Text, s: Text, p: nat)
    decreases |s| - p
  {
    if a == [] || p >= |s| || s[p] == SLASH then (p < |s| && s[p] != SLASH) == (a != [])
    else if s[p] == TILDE then
      p + 1 < |s| && ((s[p + 1] == ZERO && a[0] == TILDE) || (s[p + 1] == ONE && a[0] == SLASH)) && Match(a[1..], s, p + 2)
    else LowerChar(a[0]) == LowerChar(s[p]) && Match(a[1..], s, p + 1)
  }

  /** End of the token at p. */
  function TokenEnd(s: Text, p: nat): (q: nat)
    requires p <= |s|
    ensures p <= q <= |s| && (q < |s| ==> s[q] == SLASH)
    decreases |s| - p
  {
    if p < |s| && s[p] != SLASH then TokenEnd(s, p + 1) else p
  }

  predicate AtEnd(s: Text, p: nat) { p == |s| || (p < |s| && s[p] == SLASH) }

  /** A name matches an encoded key exactly if they are the same up to case. */
  lemma {:induction false} MatchIs(a: Text, key: Text, s: Text, p: nat)
    requires Starts(s, p, EncodeToken(key)) && AtEnd(s, p + |EncodeToken(key)|)
    ensures Match(a, s, p) <==> Lower(a) == Lower(key)
    decreases |key|
  {
    if key == [] {
    } else {
      var e := if key[0] == SLASH then [TILDE, ONE] else if key[0] == TILDE then [TILDE, ZERO] else [key[0]];
      assert EncodeToken(key) == e + EncodeToken(key[1..]);
      Split(s, p, e, EncodeToken(key[1..]));
      assert s[p] == e[0] && (|e| == 2 ==> s[p + 1] == e[1]);
      if a != [] {
        MatchIs(a[1..], key[1..], s, p + |e|);
        assert Lower(a)[0] == LowerChar(a[0]) && Lower(a)[1..] == Lower(a[1..]);
        assert Lower(key)[0] == LowerChar(key[0]) && Lower(key)[1..] == Lower(key[1..]);
        LowerSplit(a, key);
      }
    }
  }

  lemma LowerSplit(a: Text, b: Text)
    requires a != [] && b != []
    ensures Lower(a) == Lower(b) <==> LowerChar(a[0]) == LowerChar(b[0]) && Lower(a[1..]) == Lower(b[1..])
  {
    assert Lower(a) == [LowerChar(a[0])] + Lower(a[1..]);
    assert Lower(b) == [LowerChar(b[0])] + Lower(b[1..]);
    assert Lower(a)[1..] == Lower(a[1..]) && Lower(b)[1..] == Lower(b[1..]);
  }

  lemma Split(s: Text, p: nat, a: Text, b: Text)
    requires Starts(s, p, a + b)
    ensures Starts(s, p, a) && Starts(s, p + |a|, b)
    ensures forall i :: 0 <= i < |a| ==> s[p + i] == a[i]
  {
    assert s[p..p + |a|] == (a + b)[..|a|] == a;
    assert s[p + |a|..p + |a| + |b|] == (a + b)[|a|..] == b;
    forall i | 0 <= i < |a| ensures s[p + i] == a[i] { assert s[p..p + |a|][i] == a[i]; }
  }

  lemma {:induction false} TokenEndIs(s: Text, p: nat, t: Text)
    requires Starts(s, p, t) && AtEnd(s, p + |t|) && forall i :: 0 <= i < |t| ==> t[i] != SLASH
    ensures TokenEnd(s, p) == p + |t|
    decreases |t|
  {
    if t != [] {
      assert t == [t[0]] + t[1..];
      Split(s, p, [t[0]], t[1..]);
      TokenEndIs(s, p + 1, t[1..]);
    }
  }

  // ---- array indices ----------------------------------------------------------------------

  /** `%d` of a number that is not negative. */
  function Decimal(n: nat): (t: Text)
    ensures t != []
  {
    if n < 10 then [ZERO + n] else Decimal(n / 10) + [ZERO + n % 10]
  }

  /** In decimal digits, the most significant one first and none of them idle. */
  lemma DecimalIs(n: nat)
    ensures var t := Decimal(n); var k := |t| - 1;
      && t[k] == "0123456789"[n % 10] as int
      && (n < 10 ==> k == 0) && (n >= 10 ==> k > 0 && t[..k] == Decimal(n / 10))
  {
    if n >= 10 { assert Decimal(n)[..|Decimal(n)| - 1] == Decimal(n / 10); }
  }

  function DigitValue(c: byte): nat { if Digit(c) then c - ZERO else 0 }

  /** The number that the digits at p spell, and the position behind them. */
  function Index(s: Text, p: nat, n: nat): (r: (nat, nat))
    requires p <= |s|
    ensures p <= r.1 <= |s|
    decreases |s| - p
  {
    if p < |s| && Digit(s[p]) then Index(s, p + 1, 10 * n + DigitValue(s[p])) else (n, p)
  }

  lemma {:induction false} DecimalDigits(n: nat)
    ensures forall i :: 0 <= i < |Decimal(n)| ==> Digit(Decimal(n)[i])
  {
    if n >= 10 { DecimalDigits(n / 10); }
  }

  /** What digits add to a number. */
  function Value(t: Text, n: nat): nat {
    if t == [] then n else Value(t[..|t| - 1], n) * 10 + DigitValue(t[|t| - 1])
  }

  lemma {:induction false} ValueFirst(t: Text, n: nat)
    requires t != [] && forall i :: 0 <= i < |t| ==> Digit(t[i])
    ensures Value(t, n) == Value(t[1..], 10 * n + DigitValue(t[0]))
    decreases |t|
  {
    if |t| > 1 {
      ValueFirst(t[..|t| - 1], n);
      assert t[1..][..|t| - 2] == t[..|t| - 1][1..];
    } else {
      assert t[..0] == [] && t[1..] == [];
    }
  }

  lemma {:induction false} IndexIs(s: Text, p: nat, t: Text, n: nat)
    requires Starts(s, p, t) && AtEnd(s, p + |t|) && forall i :: 0 <= i < |t| ==> Digit(t[i])
    ensures Index(s, p, n) == (Value(t, n), p + |t|)
    decreases |t|
  {
    if t != [] {
      ValueFirst(t, n);
      assert t == [t[0]] + t[1..];
      Split(s, p, [t[0]], t[1..]);
      IndexIs(s, p + 1, t[1..], 10 * n + DigitValue(t[0]));
    }
  }

  lemma {:induction false} DecimalValue(n: nat)
    ensures Value(Decimal(n), 0) == n
  {
    var t := Decimal(n);
    if n < 10 {
      assert t[..0] == [];
    } else {
      DecimalValue(n / 10);
      assert t[..|t| - 1] == Decimal(n / 10);
    }
  }

  lemma DecimalReadsBack(s: Text, p: nat, n: nat)
    requires Starts(s, p, Decimal(n)) && AtEnd(s, p + |Decimal(n)|)
    ensures Index(s, p, 0) == (n, p + |Decimal(n)|)
  {
    DecimalDigits(n);
    DecimalValue(n);
    IndexIs(s, p, Decimal(n), 0);
  }

  // ---- nodes ---------------------------------------------------------------------------

  function ItemAt(items: Items, i: nat): Option<Json>
    decreases items
  {
    match items
    case NoItems => None
    case Item(v, rest) => if i == 0 then Some(v) else ItemAt(rest, i - 1)
  }

  function MemberAt(members: Members, i: nat): Option<(Text, Json)>
    decreases members
  {
    match members
    case NoMembers => None
    case Member(key, v, more) => if i == 0 then Some((key, v)) else MemberAt(more, i - 1)
  }

  /** The node that a path leads to. */
  function NodeAt(v: Json, path: Path): Option<Json>
    decreases |path|
  {
    if path == [] then Some(v)
    else
      match v
      case Arr(items) => (match ItemAt(items, path[0]) case None => None case Some(w) => NodeAt(w, path[1..]))
      case Obj(members) => (match MemberAt(members, path[0]) case None => None case Some(m) => NodeAt(m.1, path[1..]))
      case _ => None
  }

  /** The pointer that spells a path. */
  function PointerTo(v: Json, path: Path): Text
    decreases |path|
  {
    if path == [] then []
    else
      match v
      case Arr(items) =>
        (match ItemAt(items, path[0]) case None => [] case Some(w) => [SLASH] + Decimal(path[0]) + PointerTo(w, path[1..]))
      case Obj(members) =>
        (match MemberAt(members, path[0]) case None => [] case Some(m) => [SLASH] + EncodeToken(m.0) + PointerTo(m.1, path[1..]))
      case _ => []
  }

  /** The pointer of a child is that of its parent, a slash, and the token of its name or
      number, sections 3 and 4 of RFC 6901. */
  lemma {:induction false} PointerIs(v: Json, path: Path, n: nat)
    requires NodeAt(v, path + [n]).Some?
    ensures PointerTo(v, []) == []
    ensures NodeAt(v, path).Some?
    ensures NodeAt(v, path).value.Arr? ==> PointerTo(v, path + [n]) == PointerTo(v, path) + ['/' as int] + Decimal(n)
    ensures NodeAt(v, path).value.Obj? ==> MemberAt(NodeAt(v, path).value.members, n).Some?
    ensures NodeAt(v, path).value.Obj? ==>
      PointerTo(v, path + [n]) == PointerTo(v, path) + ['/' as int] + EncodeToken(MemberAt(NodeAt(v, path).value.members, n).value.0)
    decreases |path|
  {
    hide Decimal, EncodeToken;
    if path == [] {
      assert path + [n] == [n] && [n][1..] == [];
    } else {
      assert (path + [n])[0] == path[0] && (path + [n])[1..] == path[1..] + [n];
      NodePrefix(v, path, n);
      var pre, w := PointerFirst(v, path);
      var pre1, w1 := PointerFirst(v, path + [n]);
      hide PointerTo, NodeAt;
      PointerIs(w, path[1..], n);
      var more := if NodeAt(w, path[1..]).value.Arr? then Decimal(n) else if NodeAt(w, path[1..]).value.Obj? then EncodeToken(MemberAt(NodeAt(w, path[1..]).value.members, n).value.0) else [];
      Associate(pre, PointerTo(w, path[1..]), ['/' as int]);
      Associate(pre, PointerTo(w, path[1..]) + ['/' as int], more);
    }
  }

  lemma {:induction false} NodePrefix(v: Json, path: Path, n: nat)
    requires NodeAt(v, path + [n]).Some?
    ensures NodeAt(v, path).Some?
    decreases |path|
  {
    if path != [] {
      assert (path + [n])[0] == path[0] && (path + [n])[1..] == path[1..] + [n];
      match v
      case Arr(items) => NodePrefix(ItemAt(items, path[0]).value, path[1..], n);
      case Obj(members) => NodePrefix(MemberAt(members, path[0]).value.1, path[1..], n);
      case _ =>
    }
  }

  /** The first step of a path. */
  lemma PointerFirst(v: Json, path: Path) returns (pre: Text, w: Json)
    requires path != [] && NodeAt(v, path).Some?
    ensures NodeAt(v, path) == NodeAt(w, path[1..]) && PointerTo(v, path) == pre + PointerTo(w, path[1..])
    ensures match v
      case Arr(items) => Some(w) == ItemAt(items, path[0]) && pre == [SLASH] + Decimal(path[0])
      case Obj(members) => MemberAt(members, path[0]).Some? && w == MemberAt(members, path[0]).value.1 && pre == [SLASH] + EncodeToken(MemberAt(members, path[0]).value.0)
      case _ => false
  {
    hide Decimal, EncodeToken;
    match v
    case Arr(items) =>
      w := ItemAt(items, path[0]).value;
      pre := [SLASH] + Decimal(path[0]);
    case Obj(members) =>
      w := MemberAt(members, path[0]).value.1;
      pre := [SLASH] + EncodeToken(MemberAt(members, path[0]).value.0);
    case _ =>
      pre, w := [], Null;
  }

  // ---- finding a node's pointer -------------------------------------------------------------

  /** `cJSONUtils_FindPointerFromObjectTo`, for the node at path here: it searches all nodes
      below it for the one at path target. */
  function Find(v: Json, here: Path, target: Path): Option<Text>
    decreases v
  {
    if here == target then Some([])
    else
      match v
      case Arr(items) => FindInItems(items, here, 0, target)
      case Obj(members) => FindInMembers(members, here, 0, target)
      case _ => None
  }

  function FindInItems(items: Items, here: Path, c: nat, target: Path): Option<Text>
    decreases items
  {
    match items
    case NoItems => None
    case Item(v, rest) =>
      match Find(v, here + [c], target)
      case Some(found) => Some([SLASH] + Decimal(c) + found)
      case None => FindInItems(rest, here, c + 1, target)
  }

  function FindInMembers(members: Members, here: Path, c: nat, target: Path): Option<Text>
    decreases members
  {
    match members
    case NoMembers => None
    case Member(key, v, more) =>
      match Find(v, here + [c], target)
      case Some(found) => Some([SLASH] + EncodeToken(key) + found)
      case None => FindInMembers(more, here, c + 1, target)
  }

  /** Nodes that are not below here are not found there. */
  lemma {:induction false} NotBelow(v: Json, here: Path, target: Path)
    requires !(here <= target)
    ensures Find(v, here, target) == None
    decreases v
  {
    match v
    case Arr(items) => NotInItems(items, here, 0, target);
    case Obj(members) => NotInMembers(members, here, 0, target);
    case _ =>
  }

  lemma {:induction false} NotInItems(items: Items, here: Path, c: nat, target: Path)
    requires forall k :: k >= c ==> !(here + [k] <= target)
    ensures FindInItems(items, here, c, target) == None
    decreases items
  {
    match items
    case NoItems =>
    case Item(v, rest) =>
      NotBelow(v, here + [c], target);
      NotInItems(rest, here, c + 1, target);
  }

  lemma {:induction false} NotInMembers(members: Members, here: Path, c: nat, target: Path)
    requires forall k :: k >= c ==> !(here + [k] <= target)
    ensures FindInMembers(members, here, c, target) == None
    decreases members
  {
    match members
    case NoMembers =>
    case Member(key, v, more) =>
      NotBelow(v, here + [c], target);
      NotInMembers(more, here, c + 1, target);
  }

  /** The search finds every node of the tree, with the pointer that spells its path. */
  lemma {:induction false} FindIs(v: Json, here: Path, rel: Path)
    requires NodeAt(v, rel).Some?
    ensures Find(v, here, here + rel) == Some(PointerTo(v, rel))
    decreases v
  {
    if rel == [] {
      assert here + rel == here;
    } else {
      assert here != here + rel;
      match v
      case Arr(items) => FindInItemsIs(items, here, 0, rel);
      case Obj(members) => FindInMembersIs(members, here, 0, rel);
      case _ =>
    }
  }

  lemma {:induction false} FindInItemsIs(items: Items, here: Path, c: nat, rel: Path)
    requires rel != [] && c <= rel[0]
    requires ItemAt(items, rel[0] - c).Some? && NodeAt(ItemAt(items, rel[0] - c).value, rel[1..]).Some?
    ensures var w := ItemAt(items, rel[0] - c).value;
      FindInItems(items, here, c, here + rel) == Some([SLASH] + Decimal(rel[0]) + PointerTo(w, rel[1..]))
    decreases items
  {
    var v := items.value;
    if c == rel[0] {
      assert here + rel == here + [c] + rel[1..];
      FindIs(v, here + [c], rel[1..]);
    } else {
      assert (here + rel)[|here|] == rel[0] && (here + [c])[|here|] == c;
      NotBelow(v, here + [c], here + rel);
      FindInItemsIs(items.rest, here, c + 1, rel);
    }
  }

  lemma {:induction false} FindInMembersIs(members: Members, here: Path, c: nat, rel: Path)
    requires rel != [] && c <= rel[0]
    requires MemberAt(members, rel[0] - c).Some? && NodeAt(MemberAt(members, rel[0] - c).value.1, rel[1..]).Some?
    ensures var m := MemberAt(members, rel[0] - c).value;
      FindInMembers(members, here, c, here + rel) == Some([SLASH] + EncodeToken(m.0) + PointerTo(m.1, rel[1..]))
    decreases members
  {
    var v := members.val;
    if c == rel[0] {
      assert here + rel == here + [c] + rel[1..];
      FindIs(v, here + [c], rel[1..]);
    } else {
      assert (here + rel)[|here|] == rel[0] && (here + [c])[|here|] == c;
      NotBelow(v, here + [c], here + rel);
      FindInMembersIs(members.more, here, c + 1, rel);
    }
  }

  // ---- following a pointer --------------------------------------------------------------------

  /** The first member, from number c on, whose name matches the token at p. */
  function MatchingMember(members: Members, s: Text, p: nat, c: nat): Option<(nat, Json)>
    decreases members
  {
    match members
    case NoMembers => None
    case Member(key, v, more) => if Match(key, s, p) then Some((c, v)) else MatchingMember(more, s, p, c + 1)
  }

  /** `cJSONUtils_GetPointer` from position p on, at the node at path here. */
  function Get(v: Json, here: Path, s: Text, p: nat): Option<Path>
    requires p <= |s|
    decreases v
  {
    if p == |s| || s[p] != SLASH then Some(here)
    else
      match v
      case Arr(items) =>
        var (n, q) := Index(s, p + 1, 0);
        if !AtEnd(s, q) then None
        else GetItem(items, n, here + [n], s, q)
      case Obj(members) =>
        (match MatchingMember(members, s, p + 1, 0)
         case None => None
         case Some((c, w)) => GetMember(members, c, here + [c], s, TokenEnd(s, p + 1)))
      case _ => None
  }

  function GetItem(items: Items, n: nat, here: Path, s: Text, q: nat): Option<Path>
    requires q <= |s|
    decreases items
  {
    match items
    case NoItems => None
    case Item(v, rest) => if n == 0 then Get(v, here, s, q) else GetItem(rest, n - 1, here, s, q)
  }

  function GetMember(members: Members, n: nat, here: Path, s: Text, q: nat): Option<Path>
    requires q <= |s|
    decreases members
  {
    match members
    case NoMembers => None
    case Member(_, v, more) => if n == 0 then Get(v, here, s, q) else GetMember(more, n - 1, here, s, q)
  }

  /** No two names of an object are the same up to case, anywhere in the tree. */
  predicate DistinctNames(v: Json)
    decreases v
  {
    match v
    case Arr(items) => DistinctInItems(items)
    case Obj(members) => DistinctInMembers(members)
    case _ => true
  }

  predicate DistinctInItems(items: Items)
    decreases items
  {
    match items
    case NoItems => true
    case Item(v, rest) => DistinctNames(v) && DistinctInItems(rest)
  }

  predicate DistinctInMembers(members: Members)
    decreases members
  {
    match members
    case NoMembers => true
    case Member(key, v, more) => DistinctNames(v) && !Named(more, key) && DistinctInMembers(more)
  }

  /** Some member has this name, up to case. */
  predicate Named(members: Members, key: Text)
    decreases members
  {
    match members
    case NoMembers => false
    case Member(k, _, more) => Lower(k) == Lower(key) || Named(more, key)
  }

  /** One of the first n members has this name, up to case. */
  predicate NamedBefore(members: Members, n: nat, key: Text)
    decreases members
  {
    match members
    case NoMembers => false
    case Member(k, _, more) => n > 0 && (Lower(k) == Lower(key) || NamedBefore(more, n - 1, key))
  }

  /** No member on the way has an earlier sibling of the same name, up to case. */
  predicate FirstOfNames(v: Json, rel: Path)
    requires NodeAt(v, rel).Some?
    decreases |rel|
  {
    rel == [] ||
      match v
      case Arr(items) => FirstOfNames(ItemAt(items, rel[0]).value, rel[1..])
      case Obj(members) =>
        var m := MemberAt(members, rel[0]).value;
        !NamedBefore(members, rel[0], m.0) && FirstOfNames(m.1, rel[1..])
  }

  /** Of the members whose name matches, the first is taken. */
  lemma {:induction false} MatchingIs(members: Members, i: nat, s: Text, p: nat, c: nat)
    requires MemberAt(members, i).Some?
    requires var key := MemberAt(members, i).value.0; Starts(s, p, EncodeToken(key)) && AtEnd(s, p + |EncodeToken(key)|)
    ensures
      var m, r := MemberAt(members, i).value, MatchingMember(members, s, p, c);
      && r.Some? && c <= r.value.0 <= c + i && MemberAt(members, r.value.0 - c).Some?
      && (r.value.0 == c + i <==> !NamedBefore(members, i, m.0)) && (r.value.0 == c + i ==> r.value.1 == m.1)
    decreases members
  {
    var key := MemberAt(members, i).value.0;
    MatchIs(members.key, key, s, p);
    if i > 0 && Lower(members.key) != Lower(key) {
      MatchingIs(members.more, i - 1, s, p, c + 1);
    }
  }

  lemma {:induction false} NamedUpToCase(members: Members, a: Text, b: Text)
    requires Lower(a) == Lower(b)
    ensures Named(members, a) == Named(members, b)
    decreases members
  {
    if members.Member? { NamedUpToCase(members.more, a, b); }
  }

  /** Whatever is looked up below here is below here. */
  lemma {:induction false} GetBelow(v: Json, here: Path, s: Text, p: nat)
    requires p <= |s|
    ensures Get(v, here, s, p).Some? ==> here <= Get(v, here, s, p).value
    decreases v
  {
    if p < |s| && s[p] == SLASH {
      match v
      case Arr(items) =>
        var (n, q) := Index(s, p + 1, 0);
        GetItemBelow(items, n, here + [n], s, q);
      case Obj(members) =>
        var r := MatchingMember(members, s, p + 1, 0);
        if r.Some? { GetMemberBelow(members, r.value.0, here + [r.value.0], s, TokenEnd(s, p + 1)); }
      case _ =>
    }
  }

  lemma {:induction false} GetItemBelow(items: Items, n: nat, here: Path, s: Text, q: nat)
    requires q <= |s|
    ensures GetItem(items, n, here, s, q).Some? ==> here <= GetItem(items, n, here, s, q).value
    decreases items
  {
    match items
    case NoItems =>
    case Item(v, rest) => if n == 0 { GetBelow(v, here, s, q); } else { GetItemBelow(rest, n - 1, here, s, q); }
  }

  lemma {:induction false} GetMemberBelow(members: Members, n: nat, here: Path, s: Text, q: nat)
    requires q <= |s|
    ensures GetMember(members, n, here, s, q).Some? ==> here <= GetMember(members, n, here, s, q).value
    decreases members
  {
    match members
    case NoMembers =>
    case Member(_, v, more) => if n == 0 { GetBelow(v, here, s, q); } else { GetMemberBelow(more, n - 1, here, s, q); }
  }

  /** Following a node's pointer from above leads to the node exactly if the first of
      several members of a name is the one on the way, each time. */
  lemma {:induction false} GetIs(v: Json, here: Path, rel: Path, s: Text, p: nat)
    requires NodeAt(v, rel).Some?
    requires Starts(s, p, PointerTo(v, rel)) && p + |PointerTo(v, rel)| == |s|
    ensures Get(v, here, s, p) == Some(here + rel) <==> FirstOfNames(v, rel)
    decreases |rel|, 1
  {
    if rel == [] {
      assert here + rel == here;
    } else {
      assert here + [rel[0]] + rel[1..] == here + rel;
      match v
      case Arr(items) => GetItemIs(items, here, rel, s, p);
      case Obj(members) => GetMemberIs(members, here, rel, s, p);
      case _ =>
    }
  }

  lemma PointerStart(v: Json, rel: Path)
    ensures PointerTo(v, rel) == [] || PointerTo(v, rel)[0] == SLASH
  {
  }

  lemma {:induction false} GetItemAt(items: Items, n: nat, here: Path, s: Text, q: nat)
    requires q <= |s| && ItemAt(items, n).Some?
    ensures GetItem(items, n, here, s, q) == Get(ItemAt(items, n).value, here, s, q)
    decreases items
  {
    if n > 0 { GetItemAt(items.rest, n - 1, here, s, q); }
  }

  lemma {:induction false} GetMemberAt(members: Members, n: nat, here: Path, s: Text, q: nat)
    requires q <= |s| && MemberAt(members, n).Some?
    ensures GetMember(members, n, here, s, q) == Get(MemberAt(members, n).value.1, here, s, q)
    decreases members
  {
    if n > 0 { GetMemberAt(members.more, n - 1, here, s, q); }
  }

  /** A slash, a token and the rest of the pointer. */
  lemma TokenLaid(s: Text, p: nat, t: Text, w: Json, rel: Path)
    requires Starts(s, p, [SLASH] + t + PointerTo(w, rel)) && p + 1 + |t| + |PointerTo(w, rel)| == |s|
    ensures s[p] == SLASH && Starts(s, p + 1, t) && Starts(s, p + 1 + |t|, PointerTo(w, rel)) && AtEnd(s, p + 1 + |t|)
  {
    var u := PointerTo(w, rel);
    assert [SLASH] + t + u == [SLASH] + (t + u);
    Split(s, p, [SLASH], t + u);
    Split(s, p + 1, t, u);
    PointerStart(w, rel);
    if u != [] { assert s[p + 1 + |t|..][..|u|][0] == u[0]; }
  }

  lemma {:induction false} GetItemIs(items: Items, here: Path, rel: Path, s: Text, p: nat)
    requires rel != [] && NodeAt(Arr(items), rel).Some?
    requires Starts(s, p, PointerTo(Arr(items), rel)) && p + |PointerTo(Arr(items), rel)| == |s|
    ensures Get(Arr(items), here, s, p) == Some(here + [rel[0]] + rel[1..]) <==> FirstOfNames(Arr(items), rel)
    decreases |rel|, 0
  {
    var n, w := rel[0], ItemAt(items, rel[0]).value;
    var q := p + 1 + |Decimal(n)|;
    TokenLaid(s, p, Decimal(n), w, rel[1..]);
    DecimalReadsBack(s, p + 1, n);
    GetItemAt(items, n, here + [n], s, q);
    GetIs(w, here + [n], rel[1..], s, q);
  }

  lemma {:induction false} GetMemberIs(members: Members, here: Path, rel: Path, s: Text, p: nat)
    requires rel != [] && NodeAt(Obj(members), rel).Some?
    requires Starts(s, p, PointerTo(Obj(members), rel)) && p + |PointerTo(Obj(members), rel)| == |s|
    ensures Get(Obj(members), here, s, p) == Some(here + [rel[0]] + rel[1..]) <==> FirstOfNames(Obj(members), rel)
    decreases |rel|, 0
  {
    hide Match, EncodeToken, Lower, TokenEnd, NamedBefore, MatchingMember, GetMember;
    var n, m := rel[0], MemberAt(members, rel[0]).value;
    var t := EncodeToken(m.0);
    var q := p + 1 + |t|;
    TokenLaid(s, p, t, m.1, rel[1..]);
    MatchingIs(members, n, s, p + 1, 0);
    var c := MatchingMember(members, s, p + 1, 0).value.0;
    EncodedHasNoSlash(m.0);
    TokenEndIs(s, p + 1, t);
    if c == n {
      GetMemberAt(members, n, here + [n], s, q);
      GetIs(m.1, here + [n], rel[1..], s, q);
    } else {
      GetMemberBelow(members, c, here + [c], s, q);
      assert (here + [n] + rel[1..])[|here|] == n && (here + [c])[|here|] == c;
    }
  }

  /** Looking up the pointer of a node leads back to that very node exactly if no member on
      the way to it has an earlier sibling whose name is the same up to case. */
  lemma GetInvertsFind(root: Json, node: Path)
    requires NodeAt(root, node).Some?
    ensures var pointer := Find(root, [], node);
      && pointer == Some(PointerTo(root, node))
      && (Get(root, [], pointer.value, 0) == Some(node) <==> FirstOfNames(root, node))
  {
    assert [] + node == node;
    FindIs(root, [], node);
    var t := PointerTo(root, node);
    assert t[0..|t|] == t;
    GetIs(root, [], node, t, 0);
  }

  // ---- all nodes of a tree ----------------------------------------------------------------------

  /** A name that occurs, up to case, occurs at some place. */
  lemma {:induction false} NamedAt(members: Members, key: Text) returns (n: nat)
    requires Named(members, key)
    ensures MemberAt(members, n).Some? && Lower(MemberAt(members, n).value.0) == Lower(key)
    decreases members
  {
    if Lower(members.key) == Lower(key) {
      n := 0;
    } else {
      n := NamedAt(members.more, key);
      n := n + 1;
    }
  }

  lemma {:induction false} DistinctFirst(v: Json, rel: Path)
    requires DistinctNames(v) && NodeAt(v, rel).Some?
    ensures FirstOfNames(v, rel)
    decreases |rel|
  {
    if rel != [] {
      match v
      case Arr(items) =>
        DistinctItem(items, rel[0]);
        DistinctFirst(ItemAt(items, rel[0]).value, rel[1..]);
      case Obj(members) =>
        DistinctMember(members, rel[0]);
        DistinctFirst(MemberAt(members, rel[0]).value.1, rel[1..]);
      case _ =>
    }
  }

  lemma {:induction false} DistinctItem(items: Items, n: nat)
    requires DistinctInItems(items) && ItemAt(items, n).Some?
    ensures DistinctNames(ItemAt(items, n).value)
    decreases items
  {
    if n > 0 { DistinctItem(items.rest, n - 1); }
  }

  lemma {:induction false} DistinctMember(members: Members, n: nat)
    requires DistinctInMembers(members) && MemberAt(members, n).Some?
    ensures DistinctNames(MemberAt(members, n).value.1) && !NamedBefore(members, n, MemberAt(members, n).value.0)
    decreases members
  {
    if n > 0 {
      var key := MemberAt(members, n).value.0;
      DistinctMember(members.more, n - 1);
      if Lower(members.key) == Lower(key) {
        AtIsNamed(members.more, n - 1);
        NamedUpToCase(members.more, members.key, key);
      }
    }
  }

  lemma {:induction false} AtIsNamed(members: Members, i: nat)
    requires MemberAt(members, i).Some?
    ensures Named(members, MemberAt(members, i).value.0)
    decreases members
  {
    if i > 0 { AtIsNamed(members.more, i - 1); }
  }

  /** Where names are not distinct there is a node that is not reached. */
  lemma {:induction false} SomeHidden(v: Json) returns (rel: Path)
    requires !DistinctNames(v)
    ensures NodeAt(v, rel).Some? && !FirstOfNames(v, rel)
    decreases v
  {
    match v
    case Arr(items) =>
      var n, r := HiddenInItems(items);
      rel := [n] + r;
      assert rel[1..] == r;
    case Obj(members) =>
      var n, r := HiddenInMembers(members);
      rel := [n] + r;
      assert rel[1..] == r;
  }

  lemma {:induction false} HiddenInItems(items: Items) returns (n: nat, rel: Path)
    requires !DistinctInItems(items)
    ensures ItemAt(items, n).Some?
    ensures var w := ItemAt(items, n).value; NodeAt(w, rel).Some? && !FirstOfNames(w, rel)
    decreases items
  {
    if !DistinctNames(items.value) {
      n := 0;
      rel := SomeHidden(items.value);
    } else {
      n, rel := HiddenInItems(items.rest);
      n := n + 1;
    }
  }

  lemma {:induction false} HiddenInMembers(members: Members) returns (n: nat, rel: Path)
    requires !DistinctInMembers(members)
    ensures MemberAt(members, n).Some?
    ensures var m := MemberAt(members, n).value; NodeAt(m.1, rel).Some? && (NamedBefore(members, n, m.0) || !FirstOfNames(m.1, rel))
    decreases members
  {
    if !DistinctNames(members.val) {
      n := 0;
      rel := SomeHidden(members.val);
    } else if Named(members.more, members.key) {
      n := NamedAt(members.more, members.key);
      n, rel := n + 1, [];
    } else {
      n, rel := HiddenInMembers(members.more);
      n := n + 1;
    }
  }

  /** Every node is found back by its pointer exactly if no object has two names that are
      the same up to case. */
  lemma AllFoundBack(root: Json)
    ensures DistinctNames(root) <==>
      forall node :: NodeAt(root, node).Some? ==> Get(root, [], PointerTo(root, node), 0) == Some(node)
  {
    forall node | NodeAt(root, node).Some? ensures Get(root, [], PointerTo(root, node), 0) == Some(node) <==> FirstOfNames(root, node) {
      GetInvertsFind(root, node);
    }
    if DistinctNames(root) {
      forall node | NodeAt(root, node).Some? ensures FirstOfNames(root, node) { DistinctFirst(root, node); }
    } else {
      var node := SomeHidden(root);
    }
  }

  /** Names that differ in case only are taken for each other: the pointer of the second
      one leads to the first. */
  lemma CaseConfuses(v: Json, w: Json)
    ensures var root := Obj(Member([97], v, Member([65], w, NoMembers)));
      Find(root, [], [1]) == Some([SLASH, 65]) && Get(root, [], [SLASH, 65], 0) == Some([0])
  {
    var second := Member([65], w, NoMembers);
    var members := Member([97], v, second);
    assert [1][1..] == [] && NodeAt(w, []) == Some(w);
    assert MemberAt(members, 1) == MemberAt(second, 0) == Some(([65], w));
    assert EncodeToken([65]) == [65] by { assert EncodeToken([]) == []; assert [65][1..] == []; }
    assert PointerTo(w, []) == [];
    assert PointerTo(Obj(members), [1]) == [SLASH] + EncodeToken([65]) + PointerTo(w, []) == [SLASH, 65];
    assert [] + [1] == [1];
    FindIs(Obj(members), [], [1]);
    var s := [SLASH, 65];
    assert Match([97], s, 1) by { assert [97][1..] == [] && Match([], s, 2); }
    assert TokenEnd(s, 1) == TokenEnd(s, 2) == 2;
    assert MatchingMember(members, s, 1, 0) == Some((0, v));
    assert [] + [0] == [0];
    assert GetMember(members, 0, [0], s, 2) == Get(v, [0], s, 2) == Some([0]);
  }

  // ---- the same in place, character by character ----------------------------------------------

  /** `cJSONUtils_Pstrcasecmp` of a name with the token of s at p. */
  method Pstrcasecmp(a: Text, s: Text, p: nat) returns (same: bool)
    ensures same == Match(a, s, p)
  {
    var i, j := 0, p;
    assert a[0..] == a;
    while i < |a| && j < |s| && s[j] != SLASH
      invariant 0 <= i <= |a| && j >= p && Match(a, s, p) == Match(a[i..], s, j)
      decreases |a| - i
    {
      assert a[i..][0] == a[i] && a[i..][1..] == a[i + 1..];
      if s[j] == TILDE {
        if !(j + 1 < |s| && s[j + 1] == ZERO && a[i] == TILDE) && !(j + 1 < |s| && s[j + 1] == ONE && a[i] == SLASH) {
          return false;
        }
        j := j + 1;
      } else if LowerChar(a[i]) != LowerChar(s[j]) {
        return false;
      }
      i, j := i + 1, j + 1;
    }
    same := (j < |s| && s[j] != SLASH) == (i < |a|);
  }

  /** Every tilde of a token is followed by a character. */
  predicate Complete(s: Text) {
    s == [] || (if s[0] == TILDE then |s| >= 2 && Complete(s[2..]) else Complete(s[1..]))
  }

  /** The number of tildes at the end. */
  function Tildes(s: Text): nat {
    if s == [] || s[|s| - 1] != TILDE then 0 else 1 + Tildes(s[..|s| - 1])
  }

  lemma {:induction false} TildesFrom(s: Text)
    requires s != []
    ensures Tildes(s[1..]) <= |s| - 1
    ensures Tildes(s) == if Tildes(s[1..]) == |s| - 1 && s[0] == TILDE then |s| else Tildes(s[1..])
  {
    if |s| > 1 {
      var f := s[..|s| - 1];
      TildesFrom(f);
      assert f[1..] == s[1..][..|s| - 2];
    }
  }

  /** The decoder pairs each tilde with the character behind it, so the characters before
      the tildes at the end do not matter. */
  lemma {:induction false} CompleteIsEven(s: Text)
    ensures Complete(s) <==> Tildes(s) % 2 == 0
    decreases |s|
  {
    if s != [] {
      TildesFrom(s);
      if s[0] != TILDE {
        CompleteIsEven(s[1..]);
      } else if |s| >= 2 {
        TildesFrom(s[1..]);
        assert s[1..][1..] == s[2..];
        CompleteIsEven(s[2..]);
      }
    }
  }

  lemma {:induction false} EncodedIsComplete(s: Text)
    ensures Complete(EncodeToken(s)) && Tildes(EncodeToken(s)) % 2 == 0
  {
    if s != [] {
      EncodedIsComplete(s[1..]);
      var t := EncodeToken(s);
      assert t[if s[0] == SLASH || s[0] == TILDE then 2 else 1..] == EncodeToken(s[1..]);
    }
    CompleteIsEven(EncodeToken(s));
  }

  /** Where the reading pointer of `cJSONUtils_InplaceDecodePointerString` meets a zero,
      from i on; it may run out of the memory before. */
  function Stop(mem: Text, i: nat): (r: Option<nat>)
    ensures r.Some? ==> i <= r.value < |mem| && mem[r.value] == 0
    decreases |mem| - i
  {
    if i >= |mem| then None
    else if mem[i] == 0 then Some(i)
    else Stop(mem, if mem[i] == TILDE then i + 2 else i + 1)
  }

  lemma {:induction false} StopIs(mem: Text, n: nat, i: nat)
    requires i <= n < |mem| && mem[n] == 0 && forall k :: i <= k < n ==> mem[k] != 0
    ensures Stop(mem, i) == Some(n) <==> Complete(mem[i..n])
    decreases n - i
  {
    if i < n {
      var s := mem[i..n];
      assert s[0] == mem[i] && s[1..] == mem[i + 1..n];
      if mem[i] != TILDE {
        StopIs(mem, n, i + 1);
      } else if i + 2 <= n {
        assert s[2..] == mem[i + 2..n];
        StopIs(mem, n, i + 2);
      }
    }
  }

  /** The decoder stops at the end of its token exactly if the token ends in an even number
      of tildes; otherwise it goes on behind the zero. */
  lemma DecoderStops(mem: Text, n: nat)
    requires n < |mem| && mem[n] == 0 && forall k :: 0 <= k < n ==> mem[k] != 0
    ensures Stop(mem, 0) == Some(n) <==> Tildes(mem[..n]) % 2 == 0
  {
    assert mem[0..n] == mem[..n];
    StopIs(mem, n, 0);
    CompleteIsEven(mem[..n]);
  }

  /** The token of a single tilde: the decoder leaves its memory, or takes what lies behind
      the zero for more of the token. */
  lemma LoneTilde()
    ensures Stop([TILDE, 0], 0) == None
    ensures var mem: Text := [TILDE, 0, 97, 98, 0]; Stop(mem, 0) == Some(4) && DecodeToken(mem[..4]) == [SLASH, 97, 98]
  {
    assert Stop([TILDE, 0], 2) == None;
    var mem: Text := [TILDE, 0, 97, 98, 0];
    assert Stop(mem, 2) == Stop(mem, 3) == Stop(mem, 4) == Some(4);
    var t := mem[..4];
    assert t[2..] == [97, 98] && [97, 98][1..] == [98] && [98][1..] == [];
    assert DecodeToken([98]) == [98] + DecodeToken([]) == [98];
    assert DecodeToken([97, 98]) == [97] + DecodeToken([98]);
  }

  /** The character that the decoder writes for what it reads at i. */
  function Decoded(mem: Text, i: nat): byte
    requires i < |mem| && (mem[i] == TILDE ==> i + 1 < |mem|)
  {
    if mem[i] != TILDE then mem[i] else if mem[i + 1] == ZERO then TILDE else SLASH
  }

  /** One turn of the loop. */
  lemma DecodeOne(pre: Text, mem: Text, i: nat, e: nat)
    requires i < |mem| && mem[i] != 0 && Stop(mem, i) == Some(e)
    ensures var n := if mem[i] == TILDE then i + 2 else i + 1;
      n <= e < |mem| && Stop(mem, n) == Some(e) && pre + DecodeToken(mem[i..e]) == pre + [Decoded(mem, i)] + DecodeToken(mem[n..e])
  {
    var u := mem[i..e];
    assert u[0] == mem[i];
    if mem[i] != TILDE {
      assert u[1..] == mem[i + 1..e];
    } else {
      assert u[1] == mem[i + 1] && u[2..] == mem[i + 2..e];
    }
    assert pre + [Decoded(mem, i)] + DecodeToken(u[if mem[i] == TILDE then 2 else 1..])
        == pre + ([Decoded(mem, i)] + DecodeToken(u[if mem[i] == TILDE then 2 else 1..]));
  }

  lemma DecodeNothing(pre: Text, mem: Text, e: nat)
    requires e <= |mem|
    ensures pre + DecodeToken(mem[e..e]) == pre
  {
  }

  lemma StopHere(mem: Text, i: nat)
    requires i < |mem| && Stop(mem, i).Some?
    ensures mem[i] == 0 ==> Stop(mem, i) == Some(i)
  {
  }

  /** One byte written behind what has been decoded. */
  lemma Written(a: Text, b: Text, mem: Text, m: nat, c: byte)
    requires m < |a| == |mem| && a[m..] == mem[m..] && b == a[m := c]
    ensures b[..m + 1] == a[..m] + [c] && b[m + 1..] == mem[m + 1..]
  {
    assert b[m + 1..] == a[m..][1..];
    assert mem[m..][1..] == mem[m + 1..];
  }

  /** `cJSONUtils_InplaceDecodePointerString` wherever its reading pointer ends, which
      `DecoderStops` tells. What lies behind the decoded token is as it was. */
  method DecodeInPlace(a: array<byte>) returns (m: nat)
    requires Stop(a[..], 0).Some?
    modifies a
    ensures var stop := old(Stop(a[..], 0).value);
      m <= stop && a[..m] == old(DecodeToken(a[..stop])) && a[m] == 0 && a[m + 1..] == old(a[m + 1..])
  {
    hide DecodeToken, Complete, Stop;
    ghost var mem := a[..];
    ghost var e := Stop(mem, 0).value;
    var i := 0;
    m := 0;
    assert mem[0..e] == mem[..e];
    while a[i] != 0
      invariant 0 <= m <= i <= e && Stop(mem, i) == Some(e) && a[..][m..] == mem[m..]
      invariant DecodeToken(mem[..e]) == a[..m] + DecodeToken(mem[i..e])
      decreases e - i
    {
      assert a[i] == a[..][m..][i - m] == mem[i];
      DecodeOne(a[..m], mem, i, e);
      assert a[i] == TILDE ==> a[i + 1] == a[..][m..][i + 1 - m] == mem[i + 1];
      ghost var was := a[..];
      assert was[..m] == a[..m];
      ghost var c := Decoded(mem, i);
      if a[i] != TILDE {
        a[m] := a[i];
      } else {
        i := i + 1;
        a[m] := if a[i] == ZERO then TILDE else SLASH;
      }
      Written(was, a[..], mem, m, c);
      assert a[..m + 1] == a[..][..m + 1];
      m, i := m + 1, i + 1;
    }
    assert a[i] == a[..][m..][i - m] == mem[i];
    StopHere(mem, i);
    DecodeNothing(a[..m], mem, e);
    a[m] := 0;
    assert a[m + 1..] == mem[m + 1..] by { assert forall k :: m < k < a.Length ==> a[k] == mem[m..][k - m]; }
  }
}
