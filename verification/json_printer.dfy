/** The printer as it works: a growing buffer in which every piece of text ends with a
    zero, and an offset that catches up by looking for that zero. */
module JsonPrinter {
  import opened Options
  import opened Bytes
  import opened JsonParse
  import opened JsonText

  const INT_MAX: nat := 0x7FFF_FFFF

  // ---- sizes of things --------------------------------------------------------------------

  function Size(v: Json): nat
    decreases v
  {
    match v
    case Arr(items) => 1 + ItemsSize(items)
    case Obj(members) => 1 + MembersSize(members)
    case _ => 1
  }

  function ItemsSize(items: Items): nat
    decreases items
  {
    match items
    case NoItems => 0
    case Item(v, rest) => 1 + Size(v) + ItemsSize(rest)
  }

  function MembersSize(members: Members): nat
    decreases members
  {
    match members
    case NoMembers => 0
    case Member(_, v, more) => 1 + Size(v) + MembersSize(more)
  }

  // ---- escaping ---------------------------------------------------------------------------

  lemma {:induction false} EscapeAppend(s: Text, c: byte)
    ensures EscapeAll(s + [c]) == EscapeAll(s) + Escape(c)
  {
    if s == [] {
      assert (s + [c])[1..] == [];
    } else {
      EscapeAppend(s[1..], c);
      assert (s + [c])[1..] == s[1..] + [c];
    }
  }

  lemma EscapeTake(s: Text, i: nat)
    requires i < |s|
    ensures EscapeAll(s[..i + 1]) == EscapeAll(s[..i]) + Escape(s[i])
  {
    assert s[..i + 1] == s[..i] + [s[i]];
    EscapeAppend(s[..i], s[i]);
  }

  lemma {:induction false} EscapePrefix(s: Text, i: nat)
    requires i <= |s|
    ensures |EscapeAll(s[..i])| <= |EscapeAll(s)|
    decreases |s| - i
  {
    if i < |s| {
      EscapeTake(s, i);
      EscapePrefix(s, i + 1);
    } else {
      assert s[..i] == s;
    }
  }

  /** A string is its own escaped form if no character needs escaping. */
  lemma {:induction false} NothingEscaped(s: Text)
    requires |EscapeAll(s)| == |s|
    ensures EscapeAll(s) == s
  {
    if s != [] {
      EscapeGrows(s[1..]);
      NothingEscaped(s[1..]);
      assert s == [s[0]] + s[1..];
    }
  }

  lemma {:induction false} EscapeGrows(s: Text)
    ensures |EscapeAll(s)| >= |s|
  {
    if s != [] { EscapeGrows(s[1..]); }
  }

  class PrintBuffer {
    var buffer: array<byte>
    var length: nat
    var offset: nat
    var depth: nat
    const noalloc: bool
    const format: bool

    ghost predicate Valid()
      reads this
    {
      length <= buffer.Length && offset <= buffer.Length && length <= INT_MAX
    }

    /** The text so far is t, and the offset is behind it. */
    ghost predicate At(t: Text)
      reads this, buffer
    {
      Valid() && offset == |t| && buffer[..offset] == t && (length > 0 ==> offset < length)
    }

    /** The text so far is t, ended by a zero; the offset is in its last part, which is tail. */
    ghost predicate Holds(t: Text, tail: nat)
      reads this, buffer
    {
      && Valid() && |t| < length && buffer[..|t|] == t && buffer[|t|] == 0
      && tail <= offset <= |t|
    }

    /** Text longer than this cannot be held for sure: the given buffer, or INT_MAX. */
    ghost function Limit(): nat
      reads this
    {
      if noalloc then length else INT_MAX
    }

    /** A buffer to print into: given or to be grown, with length bytes to be used. */
    constructor (buffer: array<byte>, length: nat, noalloc: bool, format: bool)
      requires length <= buffer.Length && length <= INT_MAX
      ensures At([]) && depth == 0 && this.format == format && this.noalloc == noalloc && this.buffer == buffer && this.length == length
    {
      this.buffer, this.length, this.noalloc, this.format := buffer, length, noalloc, format;
      offset, depth := 0, 0;
    }

    /** `ensure`: room for needed bytes and one more behind the offset. */
    method Ensure(needed: nat, ghost t: Text) returns (ok: bool)
      requires At(t)
      modifies this
      ensures ok ==> At(t) && offset + needed < length && (buffer == old(buffer) || (!noalloc && fresh(buffer)))
      ensures depth == old(depth) && Limit() == old(Limit())
      ensures !ok ==> |t| + needed + 1 > Limit() && unchanged(this)
    {
      if length > 0 && offset >= length { return false; }
      if needed > INT_MAX { return false; }
      var total := needed + offset + 1;
      if total <= length { return true; }
      if noalloc { return false; }
      var newsize;
      if total > INT_MAX / 2 {
        if total <= INT_MAX { newsize := INT_MAX; } else { return false; }
      } else {
        newsize := total * 2;
      }
      var old_ := buffer;
      var n := offset;
      var bigger := new byte[newsize];
      forall i | 0 <= i < n { bigger[i] := old_[i]; }
      assert bigger[..n] == old_[..n];
      buffer, length := bigger, newsize;
      ok := true;
    }

    /** Bytes written at a position. */
    method Put(at: nat, d: Text)
      requires at + |d| <= buffer.Length
      modifies buffer
      ensures buffer[..] == old(buffer[..at]) + d + old(buffer[at + |d|..])
    {
      forall i | at <= i < at + |d| { buffer[i] := d[i - at]; }
    }

    /** strcpy at the offset, which stays. */
    method PutString(d: Text, ghost t: Text)
      requires At(t) && offset + |d| < length
      modifies buffer
      ensures Holds(t + d, |t|)
    {
      ghost var b := buffer[..];
      assert b[..offset] == t;
      Put(offset, d + [0]);
      PutIs(b, buffer[..], offset, d + [0]);
      assert buffer[..|t + d|] == buffer[..][..offset + |d + [0]|][..|t + d|] == t + d;
      assert buffer[|t + d|] == buffer[..][..offset + |d + [0]|][|t + d|];
    }

    /** Text written at the offset, which moves behind it. */
    method PutText(d: Text, ghost t: Text)
      requires At(t) && offset + |d| < length
      modifies buffer, `offset
      ensures At(t + d)
    {
      ghost var b := buffer[..];
      assert b[..offset] == t;
      Put(offset, d);
      PutIs(b, buffer[..], offset, d);
      offset := offset + |d|;
      assert buffer[..offset] == buffer[..][..offset];
    }

    /** `update_offset`: strlen from the offset on. */
    method UpdateOffset(ghost t: Text, ghost tail: nat)
      requires Holds(t, tail) && CString(t[tail..])
      modifies `offset
      ensures At(t)
    {
      NoZeros(t, tail);
      assert forall k :: 0 <= k < |t| ==> buffer[..|t|][k] == buffer[k];
      var i := offset;
      while buffer[i] != 0
        invariant offset <= i <= |t|
        decreases |t| - i
      {
        i := i + 1;
      }
      offset := i;
    }

    /** Additional characters that escaping needs. */
    method CountEscapes(s: Text) returns (n: nat)
      ensures |s| + n == |EscapeAll(s)|
    {
      n := 0;
      var i := 0;
      while i < |s|
        invariant 0 <= i <= |s| && i + n == |EscapeAll(s[..i])|
      {
        EscapeTake(s, i);
        if Letter(s[i]) != 0 {
          n := n + 1;
        } else if s[i] < 32 {
          n := n + 5;
        }
        i := i + 1;
      }
      assert s[..|s|] == s;
    }

    /** `print_string_ptr` */
    method PrintString(s: Text, ghost t: Text) returns (ok: bool)
      requires At(t) && CString(s)
      modifies this, buffer
      ensures depth == old(depth) && Limit() == old(Limit()) && (buffer == old(buffer) || (!noalloc && fresh(buffer)))
      ensures ok ==> Holds(t + Quote(s), |t|)
      ensures !ok ==> |t| + |Quote(s)| + 2 > Limit()
    {
      hide EscapeAll;
      var escapes := CountEscapes(s);
      var n := |s| + escapes;
      ok := Ensure(n + 3, t);
      if !ok { return; }
      if escapes == 0 {
        NothingEscaped(s);
        PutString([QUOTE] + s + [QUOTE], t);
        return;
      }
      WriteEscaped(s, t);
    }

    /** One character, escaped if it has to be. */
    method PutEscaped(c: byte, o: nat) returns (o1: nat)
      requires o + |Escape(c)| <= buffer.Length
      modifies buffer
      ensures o1 == o + |Escape(c)| && buffer[..o1] == old(buffer[..o]) + Escape(c)
    {
      if c > 31 && c != QUOTE && c != BACKSLASH {
        buffer[o] := c;
        o1 := o + 1;
      } else {
        buffer[o] := BACKSLASH;
        if Letter(c) != 0 {
          buffer[o + 1] := Letter(c);
          o1 := o + 2;
        } else {
          Put(o + 1, [CHAR_U, 48, 48, Hex(c / 16), Hex(c % 16)]);
          o1 := o + 6;
        }
      }
    }

    /** The loop of `print_string_ptr` that copies and escapes. */
    method WriteEscaped(s: Text, ghost t: Text)
      requires At(t) && CString(s) && offset + |Quote(s)| + 1 < length
      modifies buffer
      ensures Holds(t + Quote(s), |t|)
    {
      hide EscapeAll, Escape;
      ghost var q := t + [QUOTE];
      buffer[offset] := QUOTE;
      assert buffer[..offset + 1] == q;
      var i, o := 0, offset + 1;
      assert q + EscapeAll([]) == q by { EscapedNothing(); }
      assert s[..0] == [];
      while i < |s|
        invariant 0 <= i <= |s| && o == |q| + |EscapeAll(s[..i])| && o <= |t| + |Quote(s)| - 1
        invariant buffer[..o] == q + EscapeAll(s[..i])
      {
        EscapeTake(s, i);
        EscapePrefix(s, i + 1);
        o := PutEscaped(s[i], o);
        i := i + 1;
      }
      assert s[..|s|] == s;
      Put(o, [QUOTE, 0]);
      assert buffer[..|t + Quote(s)|] == t + Quote(s);
    }

    /** `print_number`, for the text that sprintf produced. */
    method PrintNumber(number: Text, ghost t: Text) returns (ok: bool)
      requires At(t) && NumText(number)
      modifies this, buffer
      ensures depth == old(depth) && Limit() == old(Limit()) && (buffer == old(buffer) || (!noalloc && fresh(buffer)))
      ensures ok ==> Holds(t + number, |t|)
      ensures !ok ==> |t| + |number| + 2 > Limit()
    {
      if |number| > 25 { return false; }
      ok := Ensure(|number|, t);
      if !ok { return; }
      PutString(number, t);
      offset := offset + |number|;
    }

    /** A literal: "null", "false" or "true". */
    method PrintLiteral(lit: Text, ghost t: Text) returns (ok: bool)
      requires At(t)
      modifies this, buffer
      ensures depth == old(depth) && Limit() == old(Limit()) && (buffer == old(buffer) || (!noalloc && fresh(buffer)))
      ensures ok ==> Holds(t + lit, |t|)
      ensures !ok ==> |t| + |lit| + 2 > Limit()
    {
      ok := Ensure(|lit| + 1, t);
      if !ok { return; }
      PutString(lit, t);
    }

    /** `print_value`: the text is exactly the printed value, ended by a zero; it fails
        only when that may not fit. */
    method PrintValue(v: Json, ghost t: Text) returns (ok: bool)
      requires At(t) && Printable(v)
      modifies this, buffer
      ensures depth == old(depth) || !ok
      ensures Limit() == old(Limit()) && (buffer == old(buffer) || (!noalloc && fresh(buffer)))
      ensures ok ==> Holds(t + Print(v, format, old(depth)), |t|)
      ensures !ok ==> |t| + |Print(v, format, old(depth))| + 2 > Limit()
      decreases Size(v), 1
    {
      match v
      case Null => ok := PrintLiteral(NULL_TEXT, t);
      case False => ok := PrintLiteral(FALSE_TEXT, t);
      case True => ok := PrintLiteral(TRUE_TEXT, t);
      case Num(text) => ok := PrintNumber(text, t);
      case Str(bytes) => ok := PrintString(bytes, t);
      case Arr(items) => ok := PrintArray(items, t);
      case Obj(members) => ok := PrintObject(members, t);
    }

    /** One turn of the loop in `print_array`: an element and what separates it from the next. */
    method PrintElement(cur: Items, ghost p: Text) returns (ok: bool)
      requires At(p) && cur.Item? && PrintableItems(cur)
      modifies this, buffer
      ensures depth == old(depth) || !ok
      ensures Limit() == old(Limit()) && (buffer == old(buffer) || (!noalloc && fresh(buffer)))
      ensures var q := Print(cur.value, format, old(depth)) + ItemEnd(cur.rest, format);
        (ok ==> At(p + q)) && (!ok ==> |p| + |q| + 2 > Limit())
      decreases ItemsSize(cur), 0
    {
      hide Print, CString;
      ghost var q := Print(cur.value, format, depth);
      PrintIsC(cur.value, format, depth);
      ok := PrintValue(cur.value, p);
      if !ok { return; }
      assert (p + q)[|p|..] == q;
      UpdateOffset(p + q, |p|);
      if cur.rest.Item? {
        ok := Ensure((if format then 2 else 1) + 1, p + q);
        if !ok { return; }
        PutText(if format then [COMMA, SPACE] else [COMMA], p + q);
      }
      assert p + q + ItemEnd(cur.rest, format) == p + (q + ItemEnd(cur.rest, format));
      assert q + [] == q;
    }

    /** The loop of `print_array`. */
    method PrintAllElements(items: Items, ghost t: Text) returns (ok: bool)
      requires At(t) && PrintableItems(items)
      modifies this, buffer
      ensures depth == old(depth) || !ok
      ensures Limit() == old(Limit()) && (buffer == old(buffer) || (!noalloc && fresh(buffer)))
      ensures var q := PrintItems(items, format, old(depth));
        (ok ==> At(t + q)) && (!ok ==> |t| + |q| + 2 > Limit())
      decreases ItemsSize(items), 1
    {
      hide Print, PrintItems, Printable, PrintableItems, ItemEnd, Size, ItemsSize;
      ghost var full := t + PrintItems(items, format, depth);
      ghost var p := t;
      var cur := items;
      ok := true;
      while cur.Item?
        invariant At(p) && depth == old(depth) && Limit() == old(Limit()) && (buffer == old(buffer) || (!noalloc && fresh(buffer)))
        invariant full == p + PrintItems(cur, format, depth)
        invariant PrintableItems(cur) && ItemsSize(cur) <= ItemsSize(items)
        invariant ok
        decreases ItemsSize(cur)
      {
        ItemParts(cur, format, depth, p);
        ArraySize(cur);
        ghost var d := depth;
        ok := PrintElement(cur, p);
        if !ok { return; }
        p := p + (Print(cur.value, format, d) + ItemEnd(cur.rest, format));
        cur := cur.rest;
      }
      NoItemsText(format, depth);
      assert full == p;
    }

    /** `print_array` */
    method PrintArray(items: Items, ghost t: Text) returns (ok: bool)
      requires At(t) && PrintableItems(items)
      modifies this, buffer
      ensures depth == old(depth) || !ok
      ensures Limit() == old(Limit()) && (buffer == old(buffer) || (!noalloc && fresh(buffer)))
      ensures ok ==> Holds(t + Print(Arr(items), format, old(depth)), |t|)
      ensures !ok ==> |t| + |Print(Arr(items), format, old(depth))| + 2 > Limit()
      decreases Size(Arr(items)), 0
    {
      hide Print, PrintItems, Printable, PrintableItems, Size, ItemsSize;
      ArraySize(items);
      ArrayParts(items, format, depth, t);
      ok := Ensure(1, t);
      if !ok { return; }
      PutText([LBRACKET], t);
      depth := depth + 1;
      ghost var q := PrintItems(items, format, depth);
      ok := PrintAllElements(items, t + [LBRACKET]);
      if !ok { return; }
      ok := Ensure(2, t + [LBRACKET] + q);
      if !ok { return; }
      PutString([RBRACKET], t + [LBRACKET] + q);
      depth := depth - 1;
    }

    /** Indentation: the offset moves as far as tabs are written. */
    method PrintTabs(n: nat, ghost p: Text) returns (ok: bool)
      requires At(p)
      modifies this, buffer
      ensures depth == old(depth) && Limit() == old(Limit()) && (buffer == old(buffer) || (!noalloc && fresh(buffer)))
      ensures (ok ==> At(p + Tabs(n))) && (!ok ==> |p| + n + 1 > Limit())
    {
      ok := Ensure(n, p);
      if !ok { return; }
      ghost var b := buffer[..];
      assert b[..offset] == p;
      var i := 0;
      while i < n
        invariant 0 <= i <= n && offset == |p| && offset + n < length <= buffer.Length
        invariant buffer[..offset + i] == p + Tabs(n)[..i]
        modifies buffer
      {
        buffer[offset + i] := TAB;
        i := i + 1;
      }
      assert Tabs(n)[..n] == Tabs(n);
      offset := offset + n;
    }

    /** One turn of the loop in `print_object`: indentation, name, colon, value and end. */
    method PrintMember(cur: Members, ghost p: Text) returns (ok: bool)
      requires At(p) && cur.Member? && PrintableMembers(cur)
      modifies this, buffer
      ensures depth == old(depth) || !ok
      ensures Limit() == old(Limit()) && (buffer == old(buffer) || (!noalloc && fresh(buffer)))
      ensures var q := MemberText(cur, format, old(depth));
        (ok ==> At(p + q)) && (!ok ==> |p| + |q| + 2 > Limit())
      decreases MembersSize(cur), 1
    {
      hide Print, Tabs, Quote, MemberEnd, At, Limit;
      ghost var q0 := if format then Tabs(depth) else [];
      ok := true;
      if format {
        ok := PrintTabs(depth, p);
        if !ok { return; }
      }
      assert p + [] == p;
      ok := PrintName(cur.key, p + q0);
      if !ok { return; }
      var colon := if format then [COLON, TAB] else [COLON];
      ghost var q1 := Quote(cur.key) + colon;
      ok := PrintMemberValue(cur, p + q0 + q1);
      ghost var q2 := Print(cur.val, format, old(depth)) + MemberEnd(cur.more, format);
      assert p + q0 + q1 + q2 == p + (q0 + Quote(cur.key) + colon + q2);
    }

    /** A name and its colon. */
    method PrintName(key: Text, ghost p: Text) returns (ok: bool)
      requires At(p) && CString(key)
      modifies this, buffer
      ensures depth == old(depth) && Limit() == old(Limit()) && (buffer == old(buffer) || (!noalloc && fresh(buffer)))
      ensures var q := Quote(key) + (if format then [COLON, TAB] else [COLON]);
        (ok ==> At(p + q)) && (!ok ==> |p| + |q| + 1 > Limit())
    {
      hide CString, Quote;
      QuoteIsC(key);
      ok := PrintString(key, p);
      if !ok { return; }
      ghost var q := Quote(key);
      assert (p + q)[|p|..] == q;
      UpdateOffset(p + q, |p|);
      var colon := if format then [COLON, TAB] else [COLON];
      ok := Ensure(|colon|, p + q);
      if !ok { return; }
      PutText(colon, p + q);
      assert p + q + colon == p + (q + colon);
    }

    /** The value of a member, and the comma and line end behind it. */
    method PrintMemberValue(cur: Members, ghost p: Text) returns (ok: bool)
      requires At(p) && cur.Member? && PrintableMembers(cur)
      modifies this, buffer
      ensures depth == old(depth) || !ok
      ensures Limit() == old(Limit()) && (buffer == old(buffer) || (!noalloc && fresh(buffer)))
      ensures var q := Print(cur.val, format, old(depth)) + MemberEnd(cur.more, format);
        (ok ==> At(p + q)) && (!ok ==> |p| + |q| + 2 > Limit())
      decreases MembersSize(cur), 0
    {
      hide Print, CString;
      ghost var q := Print(cur.val, format, depth);
      PrintIsC(cur.val, format, depth);
      ok := PrintValue(cur.val, p);
      if !ok { return; }
      assert (p + q)[|p|..] == q;
      UpdateOffset(p + q, |p|);
      var end := (if cur.more.Member? then [COMMA] else []) + (if format then [NEWLINE] else []);
      ok := Ensure(|end| + 1, p + q);
      if !ok { return; }
      PutText(end, p + q);
      assert p + q + MemberEnd(cur.more, format) == p + (q + MemberEnd(cur.more, format));
    }

    /** The loop of `print_object`. */
    method PrintAllMembers(members: Members, ghost t: Text) returns (ok: bool)
      requires At(t) && PrintableMembers(members)
      modifies this, buffer
      ensures depth == old(depth) || !ok
      ensures Limit() == old(Limit()) && (buffer == old(buffer) || (!noalloc && fresh(buffer)))
      ensures var q := PrintMembers(members, format, old(depth));
        (ok ==> At(t + q)) && (!ok ==> |t| + |q| + 2 > Limit())
      decreases MembersSize(members), 2
    {
      hide Print, PrintMembers, Printable, PrintableMembers, MemberText, Size, MembersSize, Tabs;
      ghost var full := t + PrintMembers(members, format, depth);
      ghost var p := t;
      var cur := members;
      ok := true;
      while cur.Member?
        invariant At(p) && depth == old(depth) && Limit() == old(Limit()) && (buffer == old(buffer) || (!noalloc && fresh(buffer)))
        invariant full == p + PrintMembers(cur, format, depth)
        invariant PrintableMembers(cur) && MembersSize(cur) <= MembersSize(members)
        invariant ok
        decreases MembersSize(cur)
      {
        MemberParts(cur, format, depth, p);
        ObjectSize(cur);
        ghost var d := depth;
        ok := PrintMember(cur, p);
        if !ok { return; }
        p := p + MemberText(cur, format, d);
        cur := cur.more;
      }
      NoMembersText(format, depth);
      assert full == p;
    }

    /** `print_object` */
    method PrintObject(members: Members, ghost t: Text) returns (ok: bool)
      requires At(t) && PrintableMembers(members)
      modifies this, buffer
      ensures depth == old(depth) || !ok
      ensures Limit() == old(Limit()) && (buffer == old(buffer) || (!noalloc && fresh(buffer)))
      ensures ok ==> Holds(t + Print(Obj(members), format, old(depth)), |t|)
      ensures !ok ==> |t| + |Print(Obj(members), format, old(depth))| + 2 > Limit()
      decreases Size(Obj(members)), 0
    {
      hide Print, PrintMembers, Printable, PrintableMembers, Size, MembersSize, Tabs;
      ObjectSize(members);
      ObjectParts(members, format, depth, t);
      ghost var open := if format then [LBRACE, NEWLINE] else [LBRACE];
      ok := OpenObject(t);
      if !ok { return; }
      ghost var q := PrintMembers(members, format, depth);
      ok := PrintAllMembers(members, t + open);
      if !ok { return; }
      ok := CloseObject(t + open + q);
      if !ok { return; }
      depth := depth - 1;
    }

    /** The beginning of `print_object`. */
    method OpenObject(ghost t: Text) returns (ok: bool)
      requires At(t)
      modifies this, buffer
      ensures Limit() == old(Limit()) && (buffer == old(buffer) || (!noalloc && fresh(buffer)))
      ensures var open := if format then [LBRACE, NEWLINE] else [LBRACE];
        (ok ==> At(t + open) && depth == old(depth) + 1) && (!ok ==> |t| + |open| + 2 > Limit())
    {
      var open := if format then [LBRACE, NEWLINE] else [LBRACE];
      ok := Ensure(|open| + 1, t);
      if !ok { return; }
      depth := depth + 1;
      PutText(open, t);
    }

    /** The end of `print_object`: indentation of the level above, and the brace. */
    method CloseObject(ghost p: Text) returns (ok: bool)
      requires At(p) && depth > 0
      modifies this, buffer
      ensures depth == old(depth) && Limit() == old(Limit()) && (buffer == old(buffer) || (!noalloc && fresh(buffer)))
      ensures var tail := (if format then Tabs(depth - 1) else []) + [RBRACE];
        (ok ==> Holds(p + tail, |p|)) && (!ok ==> |p| + |tail| + 2 > Limit())
    {
      ok := Ensure(if format then depth + 1 else 2, p);
      if !ok { return; }
      var tabs: Text := [];
      if format {
        var i := 0;
        while i < depth - 1
          invariant 0 <= i <= depth - 1 && tabs == Tabs(depth - 1)[..i]
        {
          tabs := tabs + [TAB];
          i := i + 1;
        }
        assert Tabs(depth - 1)[..depth - 1] == Tabs(depth - 1);
      }
      PutString(tabs + [RBRACE], p);
    }
  }

  /** `cJSON_Print` and `cJSON_PrintUnformatted`: the text of any printable value, unless
      it is as long as INT_MAX. */
  method PrintJson(v: Json, format: bool) returns (r: Option<Text>)
    requires Printable(v)
    ensures r.Some? ==> r.value == Print(v, format, 0)
    ensures |Print(v, format, 0)| + 2 <= INT_MAX ==> r.Some?
  {
    hide Print, Printable;
    var memory := new byte[256];
    var p := new PrintBuffer(memory, 0, false, format);
    var ok := p.PrintValue(v, []);
    if !ok { return None; }
    assert [] + Print(v, format, 0) == Print(v, format, 0);
    PrintIsC(v, format, 0);
    p.UpdateOffset(Print(v, format, 0), 0);
    r := Some(p.buffer[..p.offset]);
  }

  /** `cJSON_PrintPreallocated`: success if the given length exceeds the text's by two. */
  method PrintPreallocated(v: Json, memory: array<byte>, len: nat, format: bool) returns (ok: bool)
    requires Printable(v) && len <= memory.Length && len <= INT_MAX
    modifies memory
    ensures var t := Print(v, format, 0); ok ==> |t| < len && memory[..|t|] == t && memory[|t|] == 0
    ensures |Print(v, format, 0)| + 2 <= len ==> ok
  {
    hide Print, Printable;
    var p := new PrintBuffer(memory, len, true, format);
    assert [] + Print(v, format, 0) == Print(v, format, 0);
    ok := p.PrintValue(v, []);
  }

  /** One member as it is printed, without the members behind it. */
  function MemberText(cur: Members, format: bool, depth: nat): Text
    requires cur.Member?
  {
    (if format then Tabs(depth) else []) + Quote(cur.key) + (if format then [COLON, TAB] else [COLON])
      + (Print(cur.val, format, depth) + MemberEnd(cur.more, format))
  }

  lemma MemberParts(cur: Members, format: bool, depth: nat, p: Text)
    requires cur.Member? && PrintableMembers(cur)
    ensures PrintableMembers(cur.more)
    ensures PrintMembers(cur, format, depth) == MemberText(cur, format, depth) + PrintMembers(cur.more, format, depth)
    ensures p + PrintMembers(cur, format, depth) == p + MemberText(cur, format, depth) + PrintMembers(cur.more, format, depth)
  {
    hide Print, MemberEnd, Quote, Tabs;
    var m, n := MemberText(cur, format, depth), PrintMembers(cur.more, format, depth);
    assert PrintMembers(cur, format, depth) == m + n;
    assert p + (m + n) == p + m + n;
  }

  lemma NoMembersText(format: bool, depth: nat)
    ensures PrintMembers(NoMembers, format, depth) == []
  {
  }

  lemma ObjectParts(members: Members, format: bool, depth: nat, t: Text)
    ensures var open, tail := if format then [LBRACE, NEWLINE] else [LBRACE], (if format then Tabs(depth) else []) + [RBRACE];
      && t + Print(Obj(members), format, depth) == t + open + PrintMembers(members, format, depth + 1) + tail
      && |Print(Obj(members), format, depth)| == |open| + |PrintMembers(members, format, depth + 1)| + |tail|
  {
    hide PrintMembers, Tabs;
  }

  lemma ObjectSize(members: Members)
    ensures Size(Obj(members)) == 1 + MembersSize(members)
    ensures members.Member? ==> MembersSize(members) == 1 + Size(members.val) + MembersSize(members.more)
  {
  }

  lemma PutIs(b: Text, b1: Text, at: nat, d: Text)
    requires at + |d| <= |b| && b1 == b[..at] + d + b[at + |d|..]
    ensures b1[..at + |d|] == b[..at] + d
  {
  }

  lemma NoZeros(t: Text, tail: nat)
    requires tail <= |t| && CString(t[tail..])
    ensures forall k :: tail <= k < |t| ==> t[k] != 0
  {
    forall k | tail <= k < |t| ensures t[k] != 0 {
      assert t[tail..][k - tail] == t[k];
      assert t[k] in t[tail..];
    }
  }

  lemma ArraySize(items: Items)
    ensures Size(Arr(items)) == 1 + ItemsSize(items)
    ensures items.Item? ==> ItemsSize(items) == 1 + Size(items.value) + ItemsSize(items.rest)
  {
  }

  lemma EscapedNothing()
    ensures EscapeAll([]) == []
  {
  }

  lemma NoItemsText(format: bool, depth: nat)
    ensures PrintItems(NoItems, format, depth) == []
  {
  }

  lemma ArrayParts(items: Items, format: bool, depth: nat, t: Text)
    ensures t + Print(Arr(items), format, depth) == t + [LBRACKET] + PrintItems(items, format, depth + 1) + [RBRACKET]
    ensures |Print(Arr(items), format, depth)| == 2 + |PrintItems(items, format, depth + 1)|
  {
    hide PrintItems;
  }

  lemma ItemParts(items: Items, format: bool, depth: nat, p: Text)
    requires items.Item? && PrintableItems(items)
    ensures PrintableItems(items.rest)
    ensures p + PrintItems(items, format, depth)
      == p + (Print(items.value, format, depth) + ItemEnd(items.rest, format)) + PrintItems(items.rest, format, depth)
  {
    hide Print, ItemEnd;
    var a, b, c := Print(items.value, format, depth), ItemEnd(items.rest, format), PrintItems(items.rest, format, depth);
    assert PrintItems(items, format, depth) == a + b + c;
    assert p + (a + b + c) == p + (a + b) + c;
  }
}
