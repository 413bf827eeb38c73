/** Which pointers lead where: following a pointer against RFC 6901 with names up to case. */
module JsonFollow {
  import opened Options
  import opened Bytes
  import opened JsonText
  import opened JsonParse
  import opened JsonPointer

  // ---- what the tokens say ------------------------------------------------------------------

  /** The token t stands for a name: it encodes that name, up to case. */
  ghost predicate Names(t: Text, name: Text) { exists u :: Encodes(t, u, name) }

  predicate Encodes(t: Text, u: Text, name: Text) { EncodeToken(u) == t && Lower(u) == Lower(name) }

  /** The token t is a number in decimal digits; no digits stand for 0. */
  predicate IsIndex(t: Text, n: nat) { (forall i :: 0 <= i < |t| ==> Digit(t[i])) && Value(t, 0) == n }

  /** The characters from p up to q are a whole token. */
  predicate IsToken(s: Text, p: nat, q: nat) {
    p <= q <= |s| && AtEnd(s, q) && forall i :: p <= i < q ==> s[i] != SLASH
  }

  /** From p on the text leads from v along rel: slash and token for each step, to an
      element of that number or to the first member of that name. */
  ghost predicate Says(s: Text, p: nat, v: Json, rel: Path)
    decreases |rel|, 1
  {
    if rel == [] then p <= |s| && !(p < |s| && s[p] == SLASH)
    else p < |s| && s[p] == SLASH && exists q: nat :: Steps(s, p, q, v, rel)
  }

  ghost predicate Steps(s: Text, p: nat, q: nat, v: Json, rel: Path)
    requires rel != [] && p < |s|
    decreases |rel|, 0
  {
    && IsToken(s, p + 1, q)
    && match v
       case Arr(items) =>
         ItemAt(items, rel[0]).Some? && IsIndex(s[p + 1..q], rel[0]) && Says(s, q, ItemAt(items, rel[0]).value, rel[1..])
       case Obj(members) =>
         && MemberAt(members, rel[0]).Some? && FirstNamed(members, rel[0], s[p + 1..q])
         && Says(s, q, MemberAt(members, rel[0]).value.1, rel[1..])
       case _ => false
  }

  /** Member n is the first for whose name the token stands. */
  ghost predicate FirstNamed(members: Members, n: nat, t: Text)
    requires MemberAt(members, n).Some?
  {
    Names(t, MemberAt(members, n).value.0) && forall j: nat :: j < n && MemberAt(members, j).Some? ==> !Names(t, MemberAt(members, j).value.0)
  }

  // ---- tokens -------------------------------------------------------------------------------

  lemma {:induction false} TokenEnds(s: Text, p: nat, q: nat)
    requires IsToken(s, p, q)
    ensures TokenEnd(s, p) == q
    decreases q - p
  {
    if p < q { TokenEnds(s, p + 1, q); }
  }

  lemma {:induction false} TokenIs(s: Text, p: nat)
    requires p <= |s|
    ensures IsToken(s, p, TokenEnd(s, p))
    decreases |s| - p
  {
    if p < |s| && s[p] != SLASH { TokenIs(s, p + 1); }
  }

  /** A name that matches is one the token stands for. */
  lemma {:induction false} MatchNames(a: Text, s: Text, p: nat, q: nat) returns (u: Text)
    requires IsToken(s, p, q) && Match(a, s, p)
    ensures Encodes(s[p..q], u, a)
    decreases q - p
  {
    if p == q {
      u := [];
    } else if s[p] == TILDE {
      assert s[p + 1] == ZERO || s[p + 1] == ONE;
      var w := MatchNames(a[1..], s, p + 2, q);
      u := [a[0]] + w;
      assert u[1..] == w && s[p..q] == [s[p], s[p + 1]] + s[p + 2..q];
    } else {
      var w := MatchNames(a[1..], s, p + 1, q);
      u := [s[p]] + w;
      assert u[1..] == w && s[p..q] == [s[p]] + s[p + 1..q];
    }
  }

  lemma MatchIsNames(a: Text, s: Text, p: nat, q: nat)
    requires IsToken(s, p, q)
    ensures Match(a, s, p) <==> Names(s[p..q], a)
  {
    hide Match, EncodeToken, Lower;
    if Match(a, s, p) {
      var u := MatchNames(a, s, p, q);
      assert Encodes(s[p..q], u, a);
    }
    if Names(s[p..q], a) {
      var u :| Encodes(s[p..q], u, a);
      assert Starts(s, p, EncodeToken(u));
      MatchIs(a, u, s, p);
    }
  }

  lemma {:induction false} FirstMatch(members: Members, s: Text, p: nat, q: nat, c: nat)
    requires IsToken(s, p, q)
    ensures match MatchingMember(members, s, p, c)
      case None => forall j: nat :: MemberAt(members, j).Some? ==> !Names(s[p..q], MemberAt(members, j).value.0)
      case Some((n, w)) => n >= c && MemberAt(members, n - c).Some? && w == MemberAt(members, n - c).value.1 && FirstNamed(members, n - c, s[p..q])
    decreases members
  {
    hide Match, Names;
    if members.Member? {
      MatchIsNames(members.key, s, p, q);
      if !Match(members.key, s, p) {
        FirstMatch(members.more, s, p, q, c + 1);
        forall j: nat | MemberAt(members, j).Some? && (MatchingMember(members, s, p, c).None? || j < MatchingMember(members, s, p, c).value.0 - c)
          ensures !Names(s[p..q], MemberAt(members, j).value.0)
        {
          if j > 0 { assert MemberAt(members, j) == MemberAt(members.more, j - 1); }
        }
      }
    }
  }

  /** There is one first member. */
  lemma FirstOnce(members: Members, a: nat, b: nat, t: Text)
    requires MemberAt(members, a).Some? && MemberAt(members, b).Some? && FirstNamed(members, a, t) && FirstNamed(members, b, t)
    ensures a == b
  {
  }

  lemma {:induction false} DigitsOnly(s: Text, p: nat, n: nat)
    requires p <= |s|
    ensures var q := Index(s, p, n).1; forall i :: p <= i < q ==> Digit(s[i])
    decreases |s| - p
  {
    if p < |s| && Digit(s[p]) { DigitsOnly(s, p + 1, 10 * n + DigitValue(s[p])); }
  }

  lemma IndexToken(s: Text, p: nat, q: nat, n: nat)
    requires IsToken(s, p, q) && IsIndex(s[p..q], n)
    ensures Index(s, p, 0) == (n, q)
  {
    var t := s[p..q];
    IndexIs(s, p, t, 0);
  }

  lemma IndexFound(s: Text, p: nat)
    requires p <= |s| && AtEnd(s, Index(s, p, 0).1)
    ensures var (n, q) := Index(s, p, 0); IsToken(s, p, q) && IsIndex(s[p..q], n)
  {
    var (n, q) := Index(s, p, 0);
    DigitsOnly(s, p, 0);
    var t := s[p..q];
    forall i | 0 <= i < |t| ensures Digit(t[i]) { assert t[i] == s[p + i]; }
    IndexIs(s, p, t, 0);
  }

  // ---- following ----------------------------------------------------------------------------

  /** The text leads where its tokens say. */
  lemma {:induction false} SaysLeads(v: Json, here: Path, rel: Path, s: Text, p: nat)
    requires Says(s, p, v, rel)
    ensures p <= |s| && Get(v, here, s, p) == Some(here + rel)
    decreases |rel|
  {
    hide Index, MatchingMember, TokenEnd, IsIndex, FirstNamed, IsToken, GetItem, GetMember;
    if rel == [] {
      assert here + [] == here;
    } else {
      var q: nat :| Steps(s, p, q, v, rel);
      var n := rel[0];
      assert here + [n] + rel[1..] == here + rel;
      match v
      case Arr(items) =>
        SaysLeads(ItemAt(items, n).value, here + [n], rel[1..], s, q);
        IndexToken(s, p + 1, q, n);
        AtTokenEnd(s, p + 1, q);
        GetItemAt(items, n, here + [n], s, q);
      case Obj(members) =>
        SaysLeads(MemberAt(members, n).value.1, here + [n], rel[1..], s, q);
        TokenEnds(s, p + 1, q);
        FirstMatch(members, s, p + 1, q, 0);
        FoundFirst(members, s, p + 1, q, n);
        GetMemberAt(members, n, here + [n], s, q);
      case _ =>
    }
  }

  lemma AtTokenEnd(s: Text, p: nat, q: nat)
    requires IsToken(s, p, q)
    ensures AtEnd(s, q)
  {
  }

  lemma FoundFirst(members: Members, s: Text, p: nat, q: nat, n: nat)
    requires IsToken(s, p, q) && MemberAt(members, n).Some? && FirstNamed(members, n, s[p..q])
    ensures MatchingMember(members, s, p, 0) == Some((n, MemberAt(members, n).value.1))
  {
    hide MatchingMember, Names;
    FirstMatch(members, s, p, q, 0);
    FirstOnce(members, n, MatchingMember(members, s, p, 0).value.0, s[p..q]);
  }

  /** Where it leads is what its tokens say. */
  lemma {:induction false} LeadsSays(v: Json, here: Path, s: Text, p: nat) returns (rel: Path)
    requires p <= |s| && Get(v, here, s, p).Some?
    ensures Get(v, here, s, p) == Some(here + rel) && Says(s, p, v, rel)
    decreases v
  {
    hide Index, MatchingMember, TokenEnd, IsIndex, FirstNamed, IsToken, GetItem, GetMember;
    if p == |s| || s[p] != SLASH {
      rel := [];
      assert here + [] == here;
    } else {
      match v
      case Arr(items) =>
        var n, q := Index(s, p + 1, 0).0, Index(s, p + 1, 0).1;
        IndexFound(s, p + 1);
        ItemThere(items, n, here + [n], s, q);
        GetItemAt(items, n, here + [n], s, q);
        ItemSmaller(items, n);
        var r := LeadsSays(ItemAt(items, n).value, here + [n], s, q);
        rel := [n] + r;
        assert rel[1..] == r && here + [n] + r == here + rel;
        assert Steps(s, p, q, v, rel);
      case Obj(members) =>
        var q := TokenEnd(s, p + 1);
        TokenIs(s, p + 1);
        FirstMatch(members, s, p + 1, q, 0);
        var n := MatchingMember(members, s, p + 1, 0).value.0;
        GetMemberAt(members, n, here + [n], s, q);
        MemberSmaller(members, n);
        var r := LeadsSays(MemberAt(members, n).value.1, here + [n], s, q);
        rel := [n] + r;
        assert rel[1..] == r && here + [n] + r == here + rel;
        assert Steps(s, p, q, v, rel);
      case _ =>
        rel := [];
    }
  }

  lemma {:induction false} ItemThere(items: Items, n: nat, here: Path, s: Text, q: nat)
    requires q <= |s| && GetItem(items, n, here, s, q).Some?
    ensures ItemAt(items, n).Some?
    decreases items
  {
    if items.Item? && n > 0 { ItemThere(items.rest, n - 1, here, s, q); }
  }

  lemma {:induction false} ItemSmaller(items: Items, n: nat)
    requires ItemAt(items, n).Some?
    ensures ItemAt(items, n).value < items
    decreases items
  {
    if n > 0 { ItemSmaller(items.rest, n - 1); }
  }

  lemma {:induction false} MemberSmaller(members: Members, n: nat)
    requires MemberAt(members, n).Some?
    ensures MemberAt(members, n).value.1 < members
    decreases members
  {
    if n > 0 { MemberSmaller(members.more, n - 1); }
  }

  /** A text leads to a node exactly if its tokens say so, and to no other; what names no
      node leads nowhere. */
  lemma GetIsExact(root: Json, s: Text, node: Path)
    ensures Get(root, [], s, 0) == Some(node) <==> Says(s, 0, root, node)
    ensures Get(root, [], s, 0) == None <==> forall rel :: !Says(s, 0, root, rel)
  {
    hide Get, Says;
    forall rel | Says(s, 0, root, rel) ensures Get(root, [], s, 0) == Some(rel) {
      SaysLeads(root, [], rel, s, 0);
      assert [] + rel == rel;
    }
    if Get(root, [], s, 0).Some? {
      var rel := LeadsSays(root, [], s, 0);
      assert [] + rel == rel;
    }
  }
}
