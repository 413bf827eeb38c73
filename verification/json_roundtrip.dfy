/** What is printed is a text of the grammar, and parsing it gives the same tree. */
module JsonRoundTrip {
  import opened Options
  import opened Bytes
  import opened JsonText
  import opened JsonParse
  import opened JsonGrammar
  import opened JsonUnicode
  import opened JsonLanguage

  // ---- pieces of text ---------------------------------------------------------------------

  lemma StartsSplit(s: Text, p: nat, a: Text, b: Text)
    requires Starts(s, p, a + b)
    ensures Starts(s, p, a) && Starts(s, p + |a|, b)
  {
    assert s[p..p + |a|] == (a + b)[..|a|] == a;
    assert s[p + |a|..p + |a| + |b|] == (a + b)[|a|..] == b;
  }

  lemma StartsSplit6(s: Text, p: nat, a: Text, b: Text, c: Text, d: Text, e: Text, f: Text)
    requires Starts(s, p, a + (b + (c + (d + (e + f)))))
    ensures Starts(s, p, a) && Starts(s, p + |a|, b) && Starts(s, p + |a| + |b|, c) && Starts(s, p + |a| + |b| + |c|, d)
    ensures Starts(s, p + |a| + |b| + |c| + |d|, e) && Starts(s, p + |a| + |b| + |c| + |d| + |e|, f)
  {
    hide Starts;
    StartsSplit(s, p, a, b + (c + (d + (e + f))));
    StartsSplit(s, p + |a|, b, c + (d + (e + f)));
    StartsSplit(s, p + |a| + |b|, c, d + (e + f));
    StartsSplit(s, p + |a| + |b| + |c|, d, e + f);
    StartsSplit(s, p + |a| + |b| + |c| + |d|, e, f);
  }

  lemma StartsFits(s: Text, p: nat, t: Text)
    requires Starts(s, p, t)
    ensures p + |t| <= |s| && s[p..p + |t|] == t
  {
  }

  lemma StartsAt(s: Text, p: nat, t: Text, i: nat)
    requires Starts(s, p, t) && i < |t|
    ensures s[p + i] == t[i]
  {
    assert s[p..p + |t|][i] == t[i];
  }

  lemma WsText(s: Text, p: nat, t: Text)
    requires Starts(s, p, t) && forall c :: c in t ==> 0 < c <= 32
    ensures Ws(s, p, p + |t|)
  {
    forall k | p <= k < p + |t| ensures 0 < s[k] <= 32 {
      StartsAt(s, p, t, k - p);
      assert t[k - p] in t;
    }
  }

  lemma WsJoin(s: Text, p: nat, q: nat, r: nat)
    requires Ws(s, p, q) && Ws(s, q, r)
    ensures Ws(s, p, r)
  {
  }

  // ---- strings ------------------------------------------------------------------------------

  lemma HexBack(d: nat)
    requires d < 16
    ensures HexValue(Hex(d)) == Some(d)
  {
  }

  /** One escaped byte reads back as the byte. */
  lemma EscapeOne(s: Text, i: nat, e: nat, c: byte)
    requires c != 0 && Starts(s, i, Escape(c)) && i + |Escape(c)| <= e < |s|
    ensures Unescape(s, i, e) == Prepend([c], Unescape(s, i + |Escape(c)|, e))
  {
    StartsAt(s, i, Escape(c), 0);
    if Letter(c) != 0 {
      StartsAt(s, i, Escape(c), 1);
      assert Simple(Letter(c)) == Some(c);
    } else if c < 32 {
      StartsAt(s, i, Escape(c), 1);
      StartsAt(s, i, Escape(c), 2);
      StartsAt(s, i, Escape(c), 3);
      StartsAt(s, i, Escape(c), 4);
      StartsAt(s, i, Escape(c), 5);
      HexBack(c / 16);
      HexBack(c % 16);
      assert Hex4(s, i + 2) == c;
      assert Literal(s, i, e) == Done(c, 6);
      assert Utf8(c) == [c];
    }
  }

  /** Every NUL-free byte string survives escaping and unescaping. */
  lemma {:induction false} UnescapeEscape(s: Text, i: nat, e: nat, t: Text)
    requires CString(t) && Starts(s, i, EscapeAll(t)) && e == i + |EscapeAll(t)| < |s|
    ensures Unescape(s, i, e) == Some(t)
    decreases |t|
  {
    if t == [] {
    } else {
      assert t[0] in t && forall c :: c in t[1..] ==> c in t;
      StartsSplit(s, i, Escape(t[0]), EscapeAll(t[1..]));
      EscapeOne(s, i, e, t[0]);
      UnescapeEscape(s, i + |Escape(t[0])|, e, t[1..]);
      assert [t[0]] + t[1..] == t;
    }
  }

  /** One escaped byte is an escape of the grammar, or the byte itself. */
  lemma EscapeIs(s: Text, p: nat, q: nat, c: byte, b: Text)
    requires c != 0 && Starts(s, p, Escape(c)) && p + |Escape(c)| <= q && IsChars(s, p + |Escape(c)|, q, b)
    ensures IsChars(s, p, q, [c] + b)
  {
    StartsAt(s, p, Escape(c), 0);
    assert ([c] + b)[1..] == b;
    if Letter(c) != 0 {
      StartsAt(s, p, Escape(c), 1);
      assert Simple(Letter(c)) == Some(c);
      StandsIs(Letter(c), c);
      hide Stands;
    } else if c < 32 {
      EscapeCode(s, p, c);
      assert ([c] + b)[..1] == [c] && Utf8Code([c]) == Some(c);
      hide Literally;
      assert CodeAt(s, p, q, [c] + b, c, 1);
    }
  }

  lemma EscapeCode(s: Text, p: nat, c: byte)
    requires 0 < c < 32 && Letter(c) == 0 && Starts(s, p, Escape(c))
    ensures Literally(s, p, c) && Is(s, p, '\\') && Is(s, p + 1, 'u')
  {
    var t := Escape(c);
    StartsAt(s, p, t, 0);
    StartsAt(s, p, t, 1);
    StartsAt(s, p, t, 2);
    StartsAt(s, p, t, 3);
    StartsAt(s, p, t, 4);
    StartsAt(s, p, t, 5);
    HexIs(Hex(c / 16), c / 16);
    HexIs(Hex(c % 16), c % 16);
    HexBack(c / 16);
    HexBack(c % 16);
  }

  /** Escaped bytes are the characters of a string that stands for them. */
  lemma {:induction false} EscapedIsChars(s: Text, p: nat, t: Text)
    requires CString(t) && Starts(s, p, EscapeAll(t)) && p + |EscapeAll(t)| <= |s|
    ensures IsChars(s, p, p + |EscapeAll(t)|, t)
    decreases |t|
  {
    hide Escape, IsChars;
    if t == [] {
      NoChars(s, p);
    } else {
      assert t[0] in t && forall c :: c in t[1..] ==> c in t;
      StartsSplit(s, p, Escape(t[0]), EscapeAll(t[1..]));
      EscapedIsChars(s, p + |Escape(t[0])|, t[1..]);
      EscapeIs(s, p, p + |EscapeAll(t)|, t[0], t[1..]);
      assert [t[0]] + t[1..] == t;
    }
  }

  lemma NoChars(s: Text, p: nat)
    requires p <= |s|
    ensures IsChars(s, p, p, [])
  {
  }

  lemma QuoteIsString(s: Text, p: nat, t: Text)
    requires CString(t) && Starts(s, p, Quote(t))
    ensures IsString(s, p, p + |Quote(t)|, t)
  {
    hide EscapeAll, IsChars, CString, Starts;
    var q := EscapeAll(t);
    assert Quote(t) == [QUOTE] + (q + [QUOTE]);
    StartsFits(s, p, Quote(t));
    StartsSplit(s, p, [QUOTE], q + [QUOTE]);
    StartsSplit(s, p + 1, q, [QUOTE]);
    StartsAt(s, p, [QUOTE], 0);
    StartsAt(s, p + 1 + |q|, [QUOTE], 0);
    EscapedIsChars(s, p + 1, t);
  }

  // ---- numbers ------------------------------------------------------------------------------

  lemma {:induction false} SpanIs(s: Text, p: nat, t: Text, n: nat)
    requires Starts(s, p, t) && |t| <= n && p + |t| < |s| && !NumChar(s[p + |t|]) && forall c :: c in t ==> NumChar(c)
    ensures NumSpan(s, p, n) == |t|
    decreases |t|
  {
    if t != [] {
      StartsAt(s, p, t, 0);
      assert t == [t[0]] + t[1..];
      StartsSplit(s, p, [t[0]], t[1..]);
      assert forall c :: c in t[1..] ==> c in t;
      SpanIs(s, p + 1, t[1..], n - 1);
    }
  }

  lemma ParsePrintNumber(s: Text, p: nat, t: Text)
    requires Ended(s) && NumText(t) && Starts(s, p, t) && p + |t| < |s| && !NumChar(s[p + |t|])
    ensures ParseNumber(s, p) == Done(Num(t), p + |t|)
  {
    hide NumLength, NumChar, NumSpan, Starts;
    StartsFits(s, p, t);
    SpanIs(s, p, t, NUM_BUFFER);
    assert t[..|t|] == t;
  }

  lemma NumberIs(s: Text, p: nat, t: Text)
    requires NumText(t) && Starts(s, p, t)
    ensures IsNumber(s, p, p + |t|) && s[p..p + |t|] == t
  {
    hide NumLength, NumChar, Digit;
    var i, j, k := SoundParts(t);
    assert Copied(s, p, t) by { forall x | 0 <= x < |t| ensures s[p + x] == t[x] { StartsAt(s, p, t, x); } }
    PartsBack(s, p, t, |t|, i, j, k);
  }

  // ---- values -------------------------------------------------------------------------------

  lemma PrintedWord(s: Text, p: nat, v: Json)
    requires (v.Null? || v.False? || v.True?) && Starts(s, p, Print(v, false, 0))
    ensures IsValue(s, p, p + |Print(v, false, 0)|, v)
  {
    WordIs(s, p);
    hide Starts, IsWord;
    WordFits(s, p, v);
  }

  lemma WordFits(s: Text, p: nat, v: Json)
    requires (v.Null? || v.False? || v.True?) && Starts(s, p, Print(v, false, 0))
    ensures p + |Print(v, false, 0)| <= |s|
  {
  }

  /** What is printed for a value is a text of it, formatted or not, at any depth. */
  lemma {:induction false} PrintIsText(s: Text, p: nat, v: Json, format: bool, depth: nat)
    requires Printable(v) && Starts(s, p, Print(v, format, depth))
    ensures IsValue(s, p, p + |Print(v, format, depth)|, v)
    decreases v
  {
    hide Starts, Quote, NumText, IsNumber, IsString, IsItems, IsMembers;
    StartsFits(s, p, Print(v, format, depth));
    match v {
      case Num(t) =>
        NumTextSome(t);
        NumberIs(s, p, t);
      case Str(b) =>
        QuoteIsString(s, p, b);
        StringLong(s, p, p + |Quote(b)|, b);
      case Arr(items) => ArrayIsText(s, p, items, format, depth);
      case Obj(members) => ObjectIsText(s, p, members, format, depth);
      case _ => PrintedWord(s, p, v);
    }
  }

  lemma NumTextSome(t: Text)
    requires NumText(t)
    ensures t != []
  {
  }

  lemma StringLong(s: Text, p: nat, q: nat, b: Text)
    requires IsString(s, p, q, b)
    ensures p + 2 <= q <= |s|
  {
  }

  lemma {:induction false} ArrayIsText(s: Text, p: nat, items: Items, format: bool, depth: nat)
    requires PrintableItems(items) && Starts(s, p, Print(Arr(items), format, depth))
    ensures IsValue(s, p, p + |Print(Arr(items), format, depth)|, Arr(items))
    decreases items, 1
  {
    hide Starts, Print, PrintItems, IsItems, Printable, PrintableItems;
    var t := PrintItems(items, format, depth + 1);
    var z := p + 1 + |t|;
    ArrayText(items, format, depth);
    StartsFits(s, p, Print(Arr(items), format, depth));
    StartsSplit(s, p, [LBRACKET], t + [RBRACKET]);
    StartsSplit(s, p + 1, t, [RBRACKET]);
    StartsAt(s, p, [LBRACKET], 0);
    StartsAt(s, z, [RBRACKET], 0);
    if items.Item? { ItemsAreText(s, p + 1, p + 1, items, format, depth + 1); }
  }

  lemma ArrayText(items: Items, format: bool, depth: nat)
    ensures Print(Arr(items), format, depth) == [LBRACKET] + (PrintItems(items, format, depth + 1) + [RBRACKET])
    ensures items.NoItems? ==> PrintItems(items, format, depth + 1) == []
  {
  }

  /** Printed elements at p0, with white space in front from p on. */
  lemma {:induction false} ItemsAreText(s: Text, p: nat, p0: nat, items: Items, format: bool, depth: nat)
    requires items.Item? && PrintableItems(items) && Ws(s, p, p0) && Starts(s, p0, PrintItems(items, format, depth))
    ensures IsItems(s, p, p0 + |PrintItems(items, format, depth)|, items)
    decreases items, 0
  {
    hide Starts, PrintItems, Print, ItemEnd, Printable, IsValue, Ws;
    var t, sep, u := Print(items.value, format, depth), ItemEnd(items.rest, format), PrintItems(items.rest, format, depth);
    var q, b := p0 + |PrintItems(items, format, depth)|, p0 + |t|;
    ItemsText(items, format, depth);
    StartsSplit(s, p0, t, sep + u);
    StartsSplit(s, b, sep, u);
    PrintIsText(s, p0, items.value, format, depth);
    ItemSplit(s, b, items.rest, format);
    if items.rest.Item? { ItemsAreText(s, b + 1, b + |sep|, items.rest, format, depth); }
    assert ItemLies(s, p, q, items, p0, b, b) by { hide ItemEnd; }
  }

  /** What is between elements: nothing behind the last one, or a comma and maybe a space. */
  lemma ItemSplit(s: Text, b: nat, rest: Items, format: bool)
    requires Starts(s, b, ItemEnd(rest, format))
    ensures Ws(s, b, b) && (rest.NoItems? ==> ItemEnd(rest, format) == [])
    ensures rest.Item? ==> |ItemEnd(rest, format)| > 0 && Is(s, b, ',') && Ws(s, b + 1, b + |ItemEnd(rest, format)|)
  {
    if rest.Item? {
      StartsAt(s, b, ItemEnd(rest, format), 0);
      if format { StartsAt(s, b, ItemEnd(rest, format), 1); }
    }
  }

  lemma ItemsText(items: Items, format: bool, depth: nat)
    requires items.Item?
    ensures PrintItems(items, format, depth) == Print(items.value, format, depth) + (ItemEnd(items.rest, format) + PrintItems(items.rest, format, depth))
    ensures items.rest.NoItems? ==> PrintItems(items.rest, format, depth) == []
  {
    hide Print;
  }

  lemma {:induction false} ObjectIsText(s: Text, p: nat, members: Members, format: bool, depth: nat)
    requires PrintableMembers(members) && Starts(s, p, Print(Obj(members), format, depth))
    ensures IsValue(s, p, p + |Print(Obj(members), format, depth)|, Obj(members))
    decreases members, 1
  {
    hide Starts, Print, PrintMembers, IsMembers, Tabs, PrintableMembers, Ws;
    var a, y := ObjectLaid(s, p, members, format, depth);
    if members.Member? { MembersAreText(s, p + 1, a, y, members, format, depth + 1); }
  }

  /** Where the parts of a printed object lie: its members from a on, the brace at y. */
  lemma ObjectLaid(s: Text, p: nat, members: Members, format: bool, depth: nat) returns (a: nat, y: nat)
    requires Starts(s, p, Print(Obj(members), format, depth))
    ensures Is(s, p, '{') && Ws(s, p + 1, a) && Starts(s, a, PrintMembers(members, format, depth + 1))
    ensures Ws(s, a + |PrintMembers(members, format, depth + 1)|, y) && Is(s, y, '}')
    ensures y + 1 == p + |Print(Obj(members), format, depth)| <= |s| && p + 1 <= y
    ensures members.NoMembers? ==> Ws(s, p + 1, y)
  {
    hide Starts, Ws, Print, PrintMembers, Tabs;
    var open, t, tail := if format then [NEWLINE] else [], PrintMembers(members, format, depth + 1), if format then Tabs(depth) else [];
    a := p + 1 + |open|;
    var z := a + |t|;
    y := z + |tail|;
    ObjectText(members, format, depth);
    StartsFits(s, p, Print(Obj(members), format, depth));
    StartsSplit6(s, p, [LBRACE], open, t, tail, [RBRACE], []);
    StartsAt(s, p, [LBRACE], 0);
    StartsAt(s, y, [RBRACE], 0);
    WsText(s, p + 1, open);
    WsText(s, z, tail);
    if members.NoMembers? { WsJoin(s, p + 1, a, y); }
  }

  lemma ObjectText(members: Members, format: bool, depth: nat)
    ensures var open, tail := if format then [NEWLINE] else [], if format then Tabs(depth) else [];
      Print(Obj(members), format, depth) == [LBRACE] + (open + (PrintMembers(members, format, depth + 1) + (tail + ([RBRACE] + []))))
    ensures members.NoMembers? ==> PrintMembers(members, format, depth + 1) == []
  {
    hide Tabs;
    assert [RBRACE] + [] == [RBRACE];
    var t, tail := PrintMembers(members, format, depth + 1), if format then Tabs(depth) else [];
    var open := if format then [NEWLINE] else [];
    ObjectParts(members, format, depth);
    JoinRight([LBRACE], open, t, tail);
  }

  lemma ObjectParts(members: Members, format: bool, depth: nat)
    ensures Print(Obj(members), format, depth) == [LBRACE] + (if format then [NEWLINE] else []) + PrintMembers(members, format, depth + 1) + (if format then Tabs(depth) else []) + [RBRACE]
  {
    hide Tabs, PrintMembers;
  }

  lemma JoinRight(a: Text, b: Text, c: Text, d: Text)
    ensures a + b + c + d + [RBRACE] == a + (b + (c + (d + [RBRACE])))
  {
  }

  /** A printed member in its parts. */
  lemma MemberText(members: Members, format: bool, depth: nat)
    requires members.Member?
    ensures var ind, col := if format then Tabs(depth) else [], if format then [COLON, TAB] else [COLON];
      PrintMembers(members, format, depth) == ind + (Quote(members.key) + (col
        + (Print(members.val, format, depth) + (MemberEnd(members.more, format) + PrintMembers(members.more, format, depth)))))
    ensures members.more.NoMembers? ==> PrintMembers(members.more, format, depth) == []
  {
    hide Quote, Tabs, MemberEnd, Print;
  }

  /** Printed members at a, with white space in front from p on and behind up to z. */
  lemma {:induction false} MembersAreText(s: Text, p: nat, a: nat, z: nat, members: Members, format: bool, depth: nat)
    requires members.Member? && PrintableMembers(members) && Ws(s, p, a) && Starts(s, a, PrintMembers(members, format, depth))
    requires Ws(s, a + |PrintMembers(members, format, depth)|, z)
    ensures IsMembers(s, p, z, members)
    decreases members, 0
  {
    hide Starts, Ws, MemberEnd, PrintMembers, Print, Quote, Tabs, Printable, CString, IsValue, IsString, IsMembers;
    var v, more := members.val, members.more;
    var k, c, b, e, n := MemberLaid(s, a, z, members, format, depth);
    WsJoin(s, p, a, k);
    QuoteIsString(s, k, members.key);
    PrintIsText(s, b, v, format, depth);
    WsNone(s, c) by { QuoteFits(s, k, members.key); }
    var x := if more.Member? then e else z;
    if more.Member? {
      WsNone(s, e) by { StartsFits(s, b, Print(v, format, depth)); }
      MembersAreText(s, e + 1, n, z, more, format, depth);
      MembersOrder(s, e + 1, z, more);
    }
    assert MemberLies(s, p, z, members, k, c, c, b, e, x);
    MembersLie(s, p, z, members, k, c, c, b, e, x);
  }

  lemma MembersOrder(s: Text, p: nat, q: nat, members: Members)
    requires IsMembers(s, p, q, members)
    ensures p <= q
  {
    hide IsValue, IsChars;
    var k: nat, a: nat, b: nat, c: nat, d: nat, e: nat :| MemberLies(s, p, q, members, k, a, b, c, d, e);
    ValueEnd(s, c, d, members.val);
  }

  lemma QuoteFits(s: Text, k: nat, key: Text)
    requires Starts(s, k, Quote(key))
    ensures k + |Quote(key)| <= |s|
  {
  }

  lemma WsNone(s: Text, p: nat)
    requires p <= |s|
    ensures Ws(s, p, p)
  {
  }

  /** Where the parts of a printed member lie: key at k, colon at c, value from b to e,
      the other members from n. */
  lemma MemberLaid(s: Text, a: nat, z: nat, members: Members, format: bool, depth: nat) returns (k: nat, c: nat, b: nat, e: nat, n: nat)
    requires members.Member? && Starts(s, a, PrintMembers(members, format, depth))
    requires Ws(s, a + |PrintMembers(members, format, depth)|, z)
    ensures Ws(s, a, k) && Starts(s, k, Quote(members.key)) && c == k + |Quote(members.key)| && Is(s, c, ':')
    ensures Ws(s, c + 1, b) && Starts(s, b, Print(members.val, format, depth)) && e == b + |Print(members.val, format, depth)|
    ensures members.more.NoMembers? ==> Ws(s, e, z)
    ensures members.more.Member? ==> Is(s, e, ',') && Ws(s, e + 1, n) && Starts(s, n, PrintMembers(members.more, format, depth))
    ensures a + |PrintMembers(members, format, depth)| == n + |PrintMembers(members.more, format, depth)|
  {
    hide Starts, Ws, MemberEnd, PrintMembers, Print, Quote, Tabs;
    var ind, col, t := if format then Tabs(depth) else [], if format then [COLON, TAB] else [COLON], Print(members.val, format, depth);
    var end, u := MemberEnd(members.more, format), PrintMembers(members.more, format, depth);
    k := a + |ind|;
    c := k + |Quote(members.key)|;
    b := c + |col|;
    e := b + |t|;
    n := e + |end|;
    MemberText(members, format, depth);
    StartsSplit6(s, a, ind, Quote(members.key), col, t, end, u);
    WsText(s, a, ind);
    ColonIs(s, c, format);
    MemberSplit(s, e, members.more, format);
    if members.more.NoMembers? { WsJoin(s, e, n, z); }
  }

  lemma ColonIs(s: Text, c: nat, format: bool)
    requires Starts(s, c, if format then [COLON, TAB] else [COLON])
    ensures Is(s, c, ':') && Ws(s, c + 1, c + if format then 2 else 1)
  {
    StartsAt(s, c, if format then [COLON, TAB] else [COLON], 0);
    if format { StartsAt(s, c, [COLON, TAB], 1); }
  }

  lemma MemberSplit(s: Text, e: nat, more: Members, format: bool)
    requires Starts(s, e, MemberEnd(more, format))
    ensures more.NoMembers? ==> Ws(s, e, e + |MemberEnd(more, format)|)
    ensures more.Member? ==> |MemberEnd(more, format)| > 0 && Is(s, e, ',') && Ws(s, e + 1, e + |MemberEnd(more, format)|)
  {
    var end := MemberEnd(more, format);
    if more.Member? || format { StartsAt(s, e, end, 0); }
    if more.Member? && format { StartsAt(s, e, end, 1); }
  }

  // ---- and back -----------------------------------------------------------------------------

  /** The value printed at p reads back as itself, wherever it stands. */
  lemma ParsePrint(s: Text, p: nat, v: Json, format: bool, depth: nat, d: nat)
    requires Ended(s) && Printable(v) && d + Depth(v) <= NESTING_LIMIT
    requires Starts(s, p, Print(v, format, depth)) && p + |Print(v, format, depth)| < |s|
    requires !NumChar(s[p + |Print(v, format, depth)|])
    ensures ParseValue(s, p, d) == Done(v, p + |Print(v, format, depth)|)
  {
    hide Print, IsValue, Starts, NumChar, Printable, Depth, ParseValue;
    PrintIsText(s, p, v, format, depth);
    AcceptValue(s, p, p + |Print(v, format, depth)|, v, d);
  }

  /** Printing any printable tree, formatted or not, and parsing the text gives the tree
      back, also when the parser insists on the end of the text. */
  lemma PrintThenParse(v: Json, format: bool, wholly: bool)
    requires Printable(v) && Depth(v) <= NESTING_LIMIT
    ensures Parse(Print(v, format, 0), wholly) == Some(v)
  {
    hide Print, IsValue, Parse, Printable, Depth, CString;
    var t := Print(v, format, 0);
    var s := t + [0];
    PrintIsC(v, format, 0);
    assert Starts(s, 0, t) by { assert s[0..|t|] == t; }
    PrintIsText(s, 0, v, format, 0);
    ValueFirst(s, 0, |t|, v);
    assert Begin(t) == 0 by { assert |t| > 0 ==> s[0] == t[0]; }
    WsNone(s, 0);
    WsNone(s, |t|);
    assert IsText(s, 0, |t|, v);
    ParseAccepts(t, v, wholly);
  }
}
