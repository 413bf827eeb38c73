/** The parser against the grammar: what it accepts, and what for. */
module JsonLanguage {
  import opened Options
  import opened Bytes
  import opened JsonText
  import opened JsonParse
  import opened JsonGrammar
  import opened JsonUnicode

  // ---- white space and words ----------------------------------------------------------------

  lemma {:induction false} SkipWs(s: Text, p: nat, q: nat)
    requires Ended(s) && Ws(s, p, q) && q < |s| && (s[q] > 32 || q == |s| - 1)
    ensures Skip(s, p) == q
    decreases q - p
  {
    if p < q { SkipWs(s, p + 1, q); }
  }

  lemma StartsWord(s: Text, p: nat, lit: Text, word: string)
    requires |lit| == |word| && forall i :: 0 <= i < |lit| ==> lit[i] == word[i] as int
    ensures Starts(s, p, lit) <==> IsWord(s, p, p + |lit|, word)
  {
    if p + |lit| <= |s| {
      var t := s[p..p + |lit|];
      assert forall i :: 0 <= i < |lit| ==> t[i] == s[p + i];
    }
  }

  lemma WordIs(s: Text, p: nat)
    ensures Starts(s, p, NULL_TEXT) <==> IsWord(s, p, p + 4, "null")
    ensures Starts(s, p, FALSE_TEXT) <==> IsWord(s, p, p + 5, "false")
    ensures Starts(s, p, TRUE_TEXT) <==> IsWord(s, p, p + 4, "true")
  {
    hide Starts, IsWord;
    StartsWord(s, p, NULL_TEXT, "null");
    StartsWord(s, p, FALSE_TEXT, "false");
    StartsWord(s, p, TRUE_TEXT, "true");
  }

  /** A word cannot start with another. */
  lemma WordStarts(s: Text, p: nat)
    requires p < |s|
    ensures Starts(s, p, NULL_TEXT) ==> s[p] == 110
    ensures Starts(s, p, FALSE_TEXT) ==> s[p] == 102
    ensures Starts(s, p, TRUE_TEXT) ==> s[p] == 116
  {
    if p + 4 <= |s| { assert s[p..p + 4][0] == s[p]; }
    if p + 5 <= |s| { assert s[p..p + 5][0] == s[p]; }
  }

  /** The first character of a word tells which. */
  lemma WordFirst(s: Text, p: nat, q: nat, word: string)
    requires IsWord(s, p, q, word) && |word| > 0
    ensures p < |s| && s[p] == word[0] as int
  {
    assert s[p + 0] == word[0] as int;
  }

  // ---- strings ------------------------------------------------------------------------------

  lemma StandsIs(c: byte, b: byte)
    ensures Stands(c, b) <==> Simple(c) == Some(b)
    ensures Stands(c, b) ==> c != 117
  {
    if Simple(c) == Some(b) {
      var k := if c == 34 then 0 else if c == 92 then 1 else if c == 47 then 2 else if c == 98 then 3
        else if c == 102 then 4 else if c == 110 then 5 else if c == 114 then 6 else 7;
      assert c == LETTERS[k] as int && b == MEANT[k];
    }
  }

  /** The scan for the closing quote passes over a literal. */
  lemma PassLiteral(s: Text, i: nat, u: nat)
    requires Spelled(s, i, u)
    ensures StringEnd(s, i) == StringEnd(s, i + 6)
  {
    assert StringEnd(s, i + 2) == StringEnd(s, i + 3) == StringEnd(s, i + 4) == StringEnd(s, i + 5) == StringEnd(s, i + 6);
  }

  lemma PassCode(s: Text, i: nat, c: nat)
    requires Literally(s, i, c)
    ensures i + Width(c) <= |s| && StringEnd(s, i) == StringEnd(s, i + Width(c))
  {
    hide StringEnd, Spelled;
    if c < 0x10000 {
      PassLiteral(s, i, c);
      SpelledFits(s, i, c);
    } else {
      PassLiteral(s, i, Units(c)[0]);
      PassLiteral(s, i + 6, Units(c)[1]);
      SpelledFits(s, i + 6, Units(c)[1]);
    }
  }

  lemma SpelledFits(s: Text, i: nat, u: nat)
    requires Spelled(s, i, u)
    ensures i + 6 <= |s| && s[i] == BACKSLASH && s[i + 1] == CHAR_U
  {
  }

  /** A string of the grammar ends where the parser finds its end, and stands for the bytes
      that the parser reads. */
  lemma {:induction false} AcceptChars(s: Text, p: nat, q: nat, b: Text)
    requires IsChars(s, p, q, b) && q < |s| && s[q] == QUOTE
    ensures StringEnd(s, p) == Some(q) && Unescape(s, p, q) == Some(b)
    decreases q - p
  {
    hide Literally, CodeAt, Stands, Simple;
    if p == q {
    } else if s[p] == BACKSLASH {
      if Is(s, p + 1, 'u') {
        var c: nat, n: nat :| CodeAt(s, p, q, b, c, n);
        AcceptCode(s, p, q, b, c, n);
      } else {
        StandsIs(s[p + 1], b[0]);
        AcceptChars(s, p + 2, q, b[1..]);
        assert [b[0]] + b[1..] == b;
      }
    } else {
      AcceptChars(s, p + 1, q, b[1..]);
      assert [b[0]] + b[1..] == b;
    }
  }

  lemma {:induction false} AcceptCode(s: Text, p: nat, q: nat, b: Text, c: nat, n: nat)
    requires CodeAt(s, p, q, b, c, n) && p < q < |s| && s[q] == QUOTE
    ensures StringEnd(s, p) == Some(q) && Unescape(s, p, q) == Some(b)
    decreases q - p, 0
  {
    hide StringEnd, Unescape, Literally, Utf8Code, Utf8, IsChars;
    AcceptChars(s, p + Width(c), q, b[n..]);
    PassCode(s, p, c);
    LiteralBecomesUtf8(s, p, q, c);
    Utf8Once(b[..n], c);
    assert b[..n] + b[n..] == b;
  }

  lemma AcceptString(s: Text, p: nat, q: nat, b: Text)
    requires Ended(s) && IsString(s, p, q, b) && q < |s|
    ensures ParseString(s, p) == Done(b, q)
  {
    hide IsChars, StringEnd, Unescape;
    AcceptChars(s, p + 1, q - 1, b);
  }

  // ---- numbers ------------------------------------------------------------------------------

  lemma {:induction false} DigitsIs(t: Text, i: nat, j: nat)
    requires AllDigits(t, i, j) && (j < |t| ==> !Digit(t[j]))
    ensures Digits(t, i) == j
    decreases j - i
  {
    if i < j { DigitsIs(t, i + 1, j); }
  }

  /** strtod takes the whole of a number. */
  lemma AcceptParts(t: Text, i: nat, j: nat, k: nat)
    requires NumberParts(t, 0, |t|, i, j, k)
    ensures NumLength(t) == |t|
  {
    hide Digits, IsExponent, ExponentEnd;
    if k < |t| { ExponentFirst(t, k); }
    DigitsIs(t, i, j);
    if k > j { DigitsIs(t, j + 1, k); }
    if k < |t| { AcceptExponent(t, k); } else { NoExponent(t); }
  }

  lemma ExponentFirst(t: Text, k: nat)
    requires k < |t| && IsExponent(t, k, |t|)
    ensures t[k] == 101 || t[k] == 69
  {
  }

  lemma AcceptExponent(t: Text, k: nat)
    requires k < |t| && IsExponent(t, k, |t|)
    ensures ExponentEnd(t, k) == |t|
  {
    var m := if Is(t, k + 1, '+') || Is(t, k + 1, '-') then k + 2 else k + 1;
    DigitsIs(t, m, |t|);
  }

  lemma NoExponent(t: Text)
    ensures ExponentEnd(t, |t|) == |t|
  {
  }

  lemma PartsAreNumChars(s: Text, p: nat, q: nat, i: nat, j: nat, k: nat)
    requires NumberParts(s, p, q, i, j, k)
    ensures forall x :: p <= x < q ==> NumChar(s[x])
    ensures s[p] == 45 || Digit(s[p])
  {
    if k < q { ExponentChars(s, k, q); }
    hide IsExponent;
    forall x | p <= x < q ensures NumChar(s[x]) {
      if x < i || i <= x < j || x == j || j < x < k { } else { assert k <= x < q; }
    }
  }

  lemma ExponentChars(s: Text, k: nat, q: nat)
    requires q <= |s| && IsExponent(s, k, q)
    ensures forall x :: k <= x < q ==> NumChar(s[x])
  {
  }

  lemma {:induction false} SpanTo(s: Text, p: nat, q: nat, n: nat)
    requires p <= q <= |s| && q <= p + n && (q == |s| || !NumChar(s[q])) && forall x :: p <= x < q ==> NumChar(s[x])
    ensures NumSpan(s, p, n) == q - p
    decreases q - p
  {
    hide NumChar;
    if p < q { SpanTo(s, p + 1, q, n - 1); }
  }

  /** The same parts in the characters copied. */
  lemma PartsCopied(s: Text, p: nat, q: nat, i: nat, j: nat, k: nat)
    requires NumberParts(s, p, q, i, j, k)
    ensures NumberParts(s[p..q], 0, q - p, i - p, j - p, k - p)
  {
    var t := s[p..q];
    assert forall x :: 0 <= x < |t| ==> t[x] == s[p + x];
  }

  lemma AcceptNumber(s: Text, p: nat, q: nat)
    requires Ended(s) && IsNumber(s, p, q) && q < |s| && !NumChar(s[q])
    ensures ParseNumber(s, p) == Done(Num(s[p..q]), q) && p < q && (s[p] == 45 || Digit(s[p]))
  {
    hide NumChar, NumLength, NumSpan, IsNumber, Digit;
    NumberWhole(s, p, q);
    SpanTo(s, p, q, NUM_BUFFER);
    assert s[p..q][..q - p] == s[p..q];
  }

  lemma NumberWhole(s: Text, p: nat, q: nat)
    requires IsNumber(s, p, q)
    ensures p < q <= |s| && q <= p + 63 && NumLength(s[p..q]) == q - p && (s[p] == 45 || Digit(s[p]))
    ensures forall x :: p <= x < q ==> NumChar(s[x])
  {
    var i: nat, j: nat, k: nat :| NumberParts(s, p, q, i, j, k);
    hide NumChar, NumLength, IsExponent, AllDigits, Digit;
    PartsAreNumChars(s, p, q, i, j, k);
    PartsCopied(s, p, q, i, j, k);
    AcceptParts(s[p..q], i - p, j - p, k - p);
  }

  // ---- values -------------------------------------------------------------------------------

  lemma NumberFirst(s: Text, p: nat, q: nat)
    requires IsNumber(s, p, q)
    ensures p < q <= |s| && (s[p] == 45 || Digit(s[p]))
  {
    var i: nat, j: nat, k: nat :| NumberParts(s, p, q, i, j, k);
    PartsAreNumChars(s, p, q, i, j, k);
  }

  /** No value starts with white space or a closing bracket. */
  lemma ValueFirst(s: Text, p: nat, q: nat, v: Json)
    requires IsValue(s, p, q, v)
    ensures p < |s| && s[p] > 32 && s[p] != RBRACKET
    ensures s[p] == (match v
      case Null => 110
      case False => 102
      case True => 116
      case Num(text) => s[p]
      case Str(_) => QUOTE
      case Arr(_) => LBRACKET
      case Obj(_) => LBRACE)
    ensures v.Num? ==> s[p] == 45 || Digit(s[p])
  {
    hide IsWord, IsNumber, IsItems, IsMembers, IsChars;
    match v
    case Null => WordFirst(s, p, q, "null");
    case False => WordFirst(s, p, q, "false");
    case True => WordFirst(s, p, q, "true");
    case Num(_) => NumberFirst(s, p, q);
    case _ =>
  }

  lemma AcceptWord(s: Text, p: nat, q: nat, v: Json, d: nat)
    requires Ended(s) && d <= NESTING_LIMIT && IsValue(s, p, q, v) && (v.Null? || v.False? || v.True?)
    ensures ParseValue(s, p, d) == Done(v, q)
  {
    hide Starts;
    WordIs(s, p);
    ValueFirst(s, p, q, v);
    WordStarts(s, p);
  }

  /** Every text of the grammar is read as the value it is a text of, wherever it stands. */
  lemma {:induction false} AcceptValue(s: Text, p: nat, q: nat, v: Json, d: nat)
    requires Ended(s) && IsValue(s, p, q, v) && q < |s| && d + Depth(v) <= NESTING_LIMIT
    requires v.Num? ==> !NumChar(s[q])
    ensures ParseValue(s, p, d) == Done(v, q)
    decreases v, 2
  {
    hide Starts, ParseString, ParseNumber, ParseArray, ParseObject, NumChar, IsNumber, IsChars, IsItems, IsMembers, Depth, Digit;
    ValueFirst(s, p, q, v);
    if v.Null? || v.False? || v.True? {
      AcceptWord(s, p, q, v, d);
    } else {
      DigitsFirst(s, p);
      if v.Num? { NumFirstChar(s, p); }
      WordStarts(s, p);
      match v {
        case Num(_) => AcceptNumber(s, p, q);
        case Str(b) => AcceptString(s, p, q, b);
        case Arr(items) => AcceptArray(s, p, q, items, d);
        case Obj(members) => AcceptObject(s, p, q, members, d);
      }
    }
  }

  lemma DigitsFirst(s: Text, p: nat)
    requires p < |s|
    ensures Digit(s[p]) ==> 48 <= s[p] <= 57
  {
  }

  lemma NumFirstChar(s: Text, p: nat)
    requires p < |s| && (s[p] == 45 || Digit(s[p]))
    ensures s[p] != 110 && s[p] != 102 && s[p] != 116
  {
  }

  lemma {:induction false} AcceptArray(s: Text, p: nat, q: nat, items: Items, d: nat)
    requires Ended(s) && IsValue(s, p, q, Arr(items)) && q < |s| && d + Depth(Arr(items)) <= NESTING_LIMIT
    ensures ParseArray(s, p, d) == Done(Arr(items), q)
    decreases items, 3
  {
    hide ParseItems, Skip, ItemLies, DepthItems;
    if items.NoItems? {
      SkipWs(s, p + 1, q - 1);
    } else {
      var a: nat, b: nat, c: nat :| ItemLies(s, p + 1, q - 1, items, a, b, c);
      ItemFirst(s, p + 1, q - 1, items, a, b, c);
      SkipWs(s, p + 1, a);
      AcceptItems(s, a, q - 1, items, d + 1);
    }
  }

  /** The first element at a, and the same elements read from there. */
  lemma ItemFirst(s: Text, p: nat, q: nat, items: Items, a: nat, b: nat, c: nat)
    requires items.Item? && ItemLies(s, p, q, items, a, b, c)
    ensures Ws(s, p, a) && a < |s| && s[a] > 32 && s[a] != RBRACKET && IsItems(s, a, q, items)
  {
    hide IsValue, IsItems;
    ValueFirst(s, a, b, items.value);
    assert ItemLies(s, a, q, items, a, b, c);
    ItemsLie(s, a, q, items, a, b, c);
  }

  lemma ItemsLie(s: Text, p: nat, q: nat, items: Items, a: nat, b: nat, c: nat)
    requires items.Item? && ItemLies(s, p, q, items, a, b, c)
    ensures IsItems(s, p, q, items)
  {
  }

  lemma {:induction false} AcceptItems(s: Text, p: nat, q: nat, items: Items, d: nat)
    requires Ended(s) && p < |s| && IsItems(s, p, q, items) && q + 1 < |s| && s[q] == RBRACKET && d + DepthItems(items) <= NESTING_LIMIT
    ensures ParseItems(s, p, d) == Done(items, q + 1)
    decreases items, 2
  {
    hide IsValue, ParseValue, Skip, NumChar, Depth;
    var a: nat, b: nat, c: nat :| ItemLies(s, p, q, items, a, b, c);
    ValueFirst(s, a, b, items.value);
    SkipWs(s, p, a);
    WsEnds(s, b, c);
    AcceptValue(s, a, b, items.value, d);
    SkipWs(s, b, c);
    if items.rest.Item? { AcceptItems(s, c + 1, q, items.rest, d); }
  }

  /** What follows a value is no part of a number. */
  lemma WsEnds(s: Text, b: nat, c: nat)
    requires Ws(s, b, c) && c < |s| && s[c] in {COMMA, RBRACKET, RBRACE, COLON, 0}
    ensures b < |s| && !NumChar(s[b])
  {
  }

  lemma {:induction false} AcceptObject(s: Text, p: nat, q: nat, members: Members, d: nat)
    requires Ended(s) && IsValue(s, p, q, Obj(members)) && q < |s| && d + Depth(Obj(members)) <= NESTING_LIMIT
    ensures ParseObject(s, p, d) == Done(Obj(members), q)
    decreases members, 3
  {
    hide ParseMembers, Skip, MemberLies, DepthMembers;
    if members.NoMembers? {
      SkipWs(s, p + 1, q - 1);
    } else {
      var k: nat, a: nat, b: nat, c: nat, x: nat, e: nat :| MemberLies(s, p + 1, q - 1, members, k, a, b, c, x, e);
      MemberFirst(s, p + 1, q - 1, members, k, a, b, c, x, e);
      SkipWs(s, p + 1, k);
      AcceptMembers(s, k, q - 1, members, d + 1);
    }
  }

  lemma MemberFirst(s: Text, p: nat, q: nat, members: Members, k: nat, a: nat, b: nat, c: nat, d: nat, e: nat)
    requires members.Member? && MemberLies(s, p, q, members, k, a, b, c, d, e)
    ensures Ws(s, p, k) && k < |s| && s[k] == QUOTE && IsMembers(s, k, q, members)
  {
    hide IsValue, IsMembers, IsChars;
    assert MemberLies(s, k, q, members, k, a, b, c, d, e);
    MembersLie(s, k, q, members, k, a, b, c, d, e);
  }

  lemma MembersLie(s: Text, p: nat, q: nat, members: Members, k: nat, a: nat, b: nat, c: nat, d: nat, e: nat)
    requires members.Member? && MemberLies(s, p, q, members, k, a, b, c, d, e)
    ensures IsMembers(s, p, q, members)
  {
  }

  lemma {:induction false} AcceptMembers(s: Text, p: nat, q: nat, members: Members, d: nat)
    requires Ended(s) && p < |s| && IsMembers(s, p, q, members) && q + 1 < |s| && s[q] == RBRACE && d + DepthMembers(members) <= NESTING_LIMIT
    ensures ParseMembers(s, p, d) == Done(members, q + 1)
    decreases members, 2
  {
    hide IsValue, IsString, ParseMembers, ParseValue, ParseString, Skip, NumChar, Depth, Ws;
    var k: nat, a: nat, b: nat, c: nat, x: nat, e: nat :| MemberLies(s, p, q, members, k, a, b, c, x, e);
    MemberRead(s, p, q, members, k, a, b, c, x, e);
    WsEnds(s, x, e);
    AcceptString(s, k, a, members.key);
    AcceptValue(s, c, x, members.val, d);
    if members.more.Member? { AcceptMembers(s, e + 1, q, members.more, d); }
    MembersStep(s, p, d, k, a, b, c, x, e);
  }

  /** White space is skipped between the parts of a member. */
  lemma MemberRead(s: Text, p: nat, q: nat, members: Members, k: nat, a: nat, b: nat, c: nat, d: nat, e: nat)
    requires Ended(s) && members.Member? && MemberLies(s, p, q, members, k, a, b, c, d, e) && q < |s| && s[q] == RBRACE
    ensures p <= k < a <= b < c < d <= e < |s| && Skip(s, p) == k && Skip(s, a) == b && Skip(s, b + 1) == c && Skip(s, d) == e && s[b] == COLON
    ensures s[e] == if members.more.Member? then COMMA else RBRACE
  {
    hide IsValue, IsChars, IsMembers, Skip;
    ValueFirst(s, c, d, members.val);
    ValueEnd(s, c, d, members.val);
    SkipWs(s, p, k);
    SkipWs(s, a, b);
    SkipWs(s, b + 1, c);
    SkipWs(s, d, e);
  }

  lemma ValueEnd(s: Text, p: nat, q: nat, v: Json)
    requires IsValue(s, p, q, v)
    ensures p < q <= |s|
  {
  }

  /** One member read, and the rest. */
  lemma MembersStep(s: Text, p: nat, d: nat, k: nat, a: nat, b: nat, c: nat, x: nat, e: nat)
    requires Ended(s) && d <= NESTING_LIMIT && p <= k < a <= b < c < x <= e < |s|
    requires Skip(s, p) == k && Skip(s, a) == b && Skip(s, b + 1) == c && Skip(s, x) == e && s[b] == COLON
    requires var key := ParseString(s, k); key.Done? && key.end == a
    requires var v := ParseValue(s, c, d); v.Done? && v.end == x
    ensures s[e] == RBRACE ==> ParseMembers(s, p, d) == Done(Member(ParseString(s, k).value, ParseValue(s, c, d).value, NoMembers), e + 1)
    ensures s[e] == COMMA && ParseMembers(s, e + 1, d).Done? ==>
      var more := ParseMembers(s, e + 1, d);
      ParseMembers(s, p, d) == Done(Member(ParseString(s, k).value, ParseValue(s, c, d).value, more.value), more.end)
  {
    hide ParseString, ParseValue, Skip, Blank;
  }

  // ---- nothing else is accepted --------------------------------------------------------------

  /** A C string with its zero, in which every `\u` is followed by hexadecimal digits. */
  ghost predicate Plain(s: Text) {
    && Ended(s) && (forall i :: 0 <= i < |s| - 1 ==> s[i] != 0)
    && forall i :: 0 <= i < |s| - 1 && s[i] == BACKSLASH && s[i + 1] == CHAR_U ==> HexDigits(s, i + 2)
  }

  lemma SoundSkip(s: Text, p: nat)
    requires Plain(s) && p < |s|
    ensures Ws(s, p, Skip(s, p))
  {
    BlankAre(s, p);
  }

  lemma {:induction false} BlankAre(s: Text, p: nat)
    requires p <= |s|
    ensures forall i :: p <= i < Blank(s, p) ==> s[i] <= 32
    decreases |s| - p
  {
    if p < |s| && s[p] <= 32 { BlankAre(s, p + 1); }
  }

  /** What the literal at i is, if the parser takes it. */
  lemma SoundLiteral(s: Text, i: nat, e: nat)
    requires Plain(s) && i + 1 < e < |s| && s[i] == BACKSLASH && s[i + 1] == CHAR_U && Literal(s, i, e).Done?
    ensures var r := Literal(s, i, e); Literally(s, i, r.value) && r.end == Width(r.value)
  {
    hide Hex4, Spelled, Plain;
    PlainSpells(s, i);
    var u := Hex4(s, i + 2);
    if High(u) {
      PlainSpells(s, i + 6);
      PairUnits(u, Hex4(s, i + 8));
    }
  }

  lemma PlainSpells(s: Text, i: nat)
    requires Plain(s) && i + 6 < |s| && s[i] == BACKSLASH && s[i + 1] == CHAR_U
    ensures Spelled(s, i, Hex4(s, i + 2))
  {
    hide Hex4, Spelled;
    HexSpells(s, i);
  }

  lemma PairUnits(hi: nat, lo: nat)
    requires High(hi) && Low(lo)
    ensures Scalar(Pair(hi, lo)) && Pair(hi, lo) >= 0x10000 && Units(Pair(hi, lo)) == [hi, lo]
  {
    var x := Pair(hi, lo) - 0x10000;
    assert x / 0x400 == hi % 0x400 && x % 0x400 == lo % 0x400;
  }

  /** What the parser takes for a string is one. */
  lemma {:induction false} SoundChars(s: Text, i: nat, e: nat)
    requires Plain(s) && i <= |s| && StringEnd(s, i) == Some(e) && Unescape(s, i, e).Some?
    ensures IsChars(s, i, e, Unescape(s, i, e).value)
    decreases |s| - i
  {
    hide Plain, Literal, Simple, Stands, CodeAt;
    if i < e {
      var b := Unescape(s, i, e).value;
      if s[i] != BACKSLASH {
        SoundChars(s, i + 1, e);
        assert b[1..] == Unescape(s, i + 1, e).value;
      } else if s[i + 1] == CHAR_U {
        SoundCode(s, i, e);
      } else {
        StandsIs(s[i + 1], b[0]);
        SoundChars(s, i + 2, e);
        assert b[1..] == Unescape(s, i + 2, e).value;
      }
    }
  }

  lemma {:induction false} SoundCode(s: Text, i: nat, e: nat)
    requires Plain(s) && i + 1 < e < |s| && s[i] == BACKSLASH && s[i + 1] == CHAR_U
    requires StringEnd(s, i) == Some(e) && Unescape(s, i, e).Some?
    ensures IsChars(s, i, e, Unescape(s, i, e).value)
    decreases |s| - i, 0
  {
    hide Plain, Literal, Literally, StringEnd, Utf8, Utf8Code;
    var r, b := Literal(s, i, e), Unescape(s, i, e).value;
    SoundLiteral(s, i, e);
    var c := r.value;
    PassCode(s, i, c);
    LiteralScalar(s, i, c);
    Utf8IsUtf8(c);
    LiteralBecomesUtf8(s, i, e, c);
    SoundChars(s, i + Width(c), e);
    var n := |Utf8(c)|;
    assert b[..n] == Utf8(c) && b[n..] == Unescape(s, i + Width(c), e).value;
    assert CodeAt(s, i, e, b, c, n);
  }

  lemma LiteralScalar(s: Text, i: nat, c: nat)
    requires Literally(s, i, c)
    ensures Scalar(c)
  {
  }

  lemma SoundString(s: Text, p: nat)
    requires Plain(s) && p < |s| && ParseString(s, p).Done?
    ensures var r := ParseString(s, p); IsString(s, p, r.end, r.value)
  {
    hide Plain, StringEnd, Unescape, IsChars;
    SoundChars(s, p + 1, StringEnd(s, p + 1).value);
  }

  // ---- numbers ------------------------------------------------------------------------------

  lemma {:induction false} DigitsAre(t: Text, i: nat)
    requires i <= |t|
    ensures AllDigits(t, i, Digits(t, i))
    decreases |t| - i
  {
    if i < |t| && Digit(t[i]) { DigitsAre(t, i + 1); }
  }

  lemma SoundExponent(t: Text, k: nat)
    requires k <= |t|
    ensures var n := ExponentEnd(t, k); n == k || (k < n && IsExponent(t, k, n))
  {
    if k < |t| && (t[k] == 101 || t[k] == 69) {
      var e := if k + 1 < |t| && (t[k + 1] == 43 || t[k + 1] == 45) then k + 2 else k + 1;
      DigitsAre(t, e);
    }
  }

  lemma DigitsMove(t: Text)
    requires t != []
    ensures Digit(t[0]) ==> Digits(t, 0) > 0
  {
  }

  /** What strtod takes, after a first character that the parser admits, is a number. */
  lemma SoundParts(t: Text) returns (i: nat, j: nat, k: nat)
    requires NumLength(t) > 0 && (t[0] == 45 || Digit(t[0]))
    ensures NumberParts(t, 0, NumLength(t), i, j, k)
  {
    hide Digits, ExponentEnd, IsExponent;
    DigitsMove(t);
    i := if t[0] == 45 then 1 else 0;
    j := Digits(t, i);
    k := if j < |t| && t[j] == 46 then Digits(t, j + 1) else j;
    DigitsAre(t, i);
    if j < |t| && t[j] == 46 { DigitsAre(t, j + 1); }
    SoundExponent(t, k);
  }

  /** t is copied from s. */
  predicate Copied(s: Text, p: nat, t: Text) { p + |t| <= |s| && forall x :: 0 <= x < |t| ==> s[p + x] == t[x] }

  lemma DigitsBack(s: Text, p: nat, t: Text, i: nat, j: nat)
    requires Copied(s, p, t) && AllDigits(t, i, j)
    ensures AllDigits(s, p + i, p + j)
  {
    forall x | p + i <= x < p + j ensures '0' as int <= s[x] <= '9' as int { assert s[p + (x - p)] == t[x - p]; }
  }

  lemma ExponentBack(s: Text, p: nat, t: Text, k: nat, n: nat)
    requires Copied(s, p, t) && IsExponent(t, k, n)
    ensures IsExponent(s, p + k, p + n)
  {
    var m := if Is(t, k + 1, '+') || Is(t, k + 1, '-') then k + 2 else k + 1;
    DigitsBack(s, p, t, m, n);
    hide AllDigits;
    assert s[p + k] == t[k] && s[p + (k + 1)] == t[k + 1];
  }

  lemma PartsBack(s: Text, p: nat, t: Text, n: nat, i: nat, j: nat, k: nat)
    requires Copied(s, p, t) && n <= |t| && NumberParts(t, 0, n, i, j, k)
    ensures NumberParts(s, p, p + n, p + i, p + j, p + k)
  {
    DigitsBack(s, p, t, i, j);
    if k > j { DigitsBack(s, p, t, j + 1, k); }
    if k < n { ExponentBack(s, p, t, k, n); }
    hide AllDigits, IsExponent;
    assert s[p + 0] == t[0];
    if j < |t| { assert s[p + j] == t[j]; }
  }

  lemma SoundNumber(s: Text, p: nat)
    requires Ended(s) && p < |s| && (s[p] == 45 || Digit(s[p])) && ParseNumber(s, p).Done?
    ensures var r := ParseNumber(s, p); r.value.Num? && IsNumber(s, p, r.end) && r.value.text == s[p..r.end]
  {
    hide NumLength, NumChar, NumSpan, Digit;
    var t := s[p..p + NumSpan(s, p, NUM_BUFFER)];
    var n := NumLength(t);
    assert t[0] == s[p];
    var i, j, k := SoundParts(t);
    PartsBack(s, p, t, n, i, j, k);
    assert t[..n] == s[p..p + n];
  }

  // ---- values -------------------------------------------------------------------------------

  /** What the parser reads as a value is a text of it. */
  lemma {:induction false} SoundValue(s: Text, p: nat, d: nat)
    requires Ended(s) && Plain(s) && p < |s| && d <= NESTING_LIMIT && ParseValue(s, p, d).Done?
    ensures var r := ParseValue(s, p, d); IsValue(s, p, r.end, r.value) && d + Depth(r.value) <= NESTING_LIMIT
    decreases NESTING_LIMIT - d, |s| - p, 2
  {
    hide Plain, Starts, ParseString, ParseNumber, ParseArray, ParseObject, IsNumber, IsString, IsItems, IsMembers, IsWord, Digit, DepthItems, DepthMembers;
    WordIs(s, p);
    if Starts(s, p, NULL_TEXT) || Starts(s, p, FALSE_TEXT) || Starts(s, p, TRUE_TEXT) {
    } else if s[p] == QUOTE {
      SoundString(s, p);
    } else if s[p] == 45 || Digit(s[p]) {
      SoundNumber(s, p);
    } else if s[p] == LBRACKET {
      SoundArray(s, p, d);
    } else if s[p] == LBRACE {
      SoundObject(s, p, d);
    }
  }

  lemma {:induction false} SoundArray(s: Text, p: nat, d: nat)
    requires Ended(s) && Plain(s) && p < |s| && d <= NESTING_LIMIT && s[p] == LBRACKET && ParseArray(s, p, d).Done?
    ensures var r := ParseArray(s, p, d); IsValue(s, p, r.end, r.value) && d + Depth(r.value) <= NESTING_LIMIT
    decreases NESTING_LIMIT - d, |s| - p, 1
  {
    hide Plain, ParseItems, IsItems, Skip, DepthItems;
    var q := Skip(s, p + 1);
    SoundSkip(s, p + 1);
    if s[q] == RBRACKET {
      DepthNone();
    } else {
      SoundItems(s, q, d + 1);
      var r := ParseItems(s, q, d + 1);
      ItemsFrom(s, p + 1, q, r.end - 1, r.value);
    }
  }

  lemma DepthNone()
    ensures DepthItems(NoItems) == 0 && DepthMembers(NoMembers) == 0
  {
  }

  /** White space in front of the first element. */
  lemma ItemsFrom(s: Text, p: nat, a: nat, q: nat, items: Items)
    requires Ws(s, p, a) && IsItems(s, a, q, items)
    ensures IsItems(s, p, q, items) && a <= q
  {
    hide IsValue;
    var a1: nat, b: nat, c: nat :| ItemLies(s, a, q, items, a1, b, c);
    ValueEnd(s, a1, b, items.value);
    assert ItemLies(s, p, q, items, a1, b, c);
  }

  lemma {:induction false} SoundItems(s: Text, p: nat, d: nat)
    requires Ended(s) && Plain(s) && p < |s| && d <= NESTING_LIMIT && ParseItems(s, p, d).Done?
    ensures var r := ParseItems(s, p, d);
      && r.value.Item? && IsItems(s, p, r.end - 1, r.value) && s[r.end - 1] == RBRACKET && d + DepthItems(r.value) <= NESTING_LIMIT
    decreases NESTING_LIMIT - d, |s| - p, 3
  {
    hide Plain, ParseValue, IsValue, Skip, Depth;
    var a := Skip(s, p);
    SoundSkip(s, p);
    SoundValue(s, a, d);
    var v := ParseValue(s, a, d);
    var c := Skip(s, v.end);
    SoundSkip(s, v.end);
    var r := ParseItems(s, p, d);
    if s[c] == COMMA { SoundItems(s, c + 1, d); }
    assert ItemLies(s, p, r.end - 1, r.value, a, v.end, c);
  }

  lemma {:induction false} SoundObject(s: Text, p: nat, d: nat)
    requires Ended(s) && Plain(s) && p < |s| && d <= NESTING_LIMIT && s[p] == LBRACE && ParseObject(s, p, d).Done?
    ensures var r := ParseObject(s, p, d); IsValue(s, p, r.end, r.value) && d + Depth(r.value) <= NESTING_LIMIT
    decreases NESTING_LIMIT - d, |s| - p, 1
  {
    hide Plain, ParseMembers, IsMembers, Skip, DepthMembers;
    var q := Skip(s, p + 1);
    SoundSkip(s, p + 1);
    if s[q] == RBRACE {
      DepthNone();
    } else {
      SoundMembers(s, q, d + 1);
      var r := ParseMembers(s, q, d + 1);
      MembersFrom(s, p + 1, q, r.end - 1, r.value);
    }
  }

  lemma MembersFrom(s: Text, p: nat, k: nat, q: nat, members: Members)
    requires Ws(s, p, k) && IsMembers(s, k, q, members)
    ensures IsMembers(s, p, q, members) && k <= q
  {
    hide IsValue, IsChars;
    var k1: nat, a: nat, b: nat, c: nat, x: nat, e: nat :| MemberLies(s, k, q, members, k1, a, b, c, x, e);
    ValueEnd(s, c, x, members.val);
    assert MemberLies(s, p, q, members, k1, a, b, c, x, e);
  }

  lemma {:induction false} SoundMembers(s: Text, p: nat, d: nat)
    requires Ended(s) && Plain(s) && p < |s| && d <= NESTING_LIMIT && ParseMembers(s, p, d).Done?
    ensures var r := ParseMembers(s, p, d);
      && r.value.Member? && IsMembers(s, p, r.end - 1, r.value) && s[r.end - 1] == RBRACE && d + DepthMembers(r.value) <= NESTING_LIMIT
    decreases NESTING_LIMIT - d, |s| - p, 3
  {
    hide Plain, ParseValue, ParseString, IsValue, IsString, Skip, Depth;
    var k := Skip(s, p);
    SoundSkip(s, p);
    SoundString(s, k);
    var key := ParseString(s, k);
    var b := Skip(s, key.end);
    SoundSkip(s, key.end);
    var c := Skip(s, b + 1);
    SoundSkip(s, b + 1);
    SoundValue(s, c, d);
    var v := ParseValue(s, c, d);
    var e := Skip(s, v.end);
    SoundSkip(s, v.end);
    var r := ParseMembers(s, p, d);
    if s[e] == COMMA { SoundMembers(s, e + 1, d); }
    assert MemberLies(s, p, r.end - 1, r.value, k, key.end, b, c, v.end, e);
  }

  // ---- whole texts --------------------------------------------------------------------------

  /** Where a text starts: behind a byte order mark, if there is one and more. */
  function Begin(text: Text): (p: nat)
    ensures p <= |text|
  {
    if |text| >= 4 && text[0] == 0xEF && text[1] == 0xBB && text[2] == 0xBF then 3 else 0
  }

  lemma BeginIs(text: Text)
    requires CString(text)
    ensures Seen(text) + [0] == text + [0] && AfterBom(text + [0]) == Begin(text) && Ended(text + [0])
  {
    SeenWhole(text);
    var s := text + [0];
    if |s| > 4 {
      var t := s[..3];
      assert t == [0xEF, 0xBB, 0xBF] <==> t[0] == 0xEF && t[1] == 0xBB && t[2] == 0xBF;
    }
  }

  /** Every text of the grammar, nested up to the limit, is read as its value. */
  lemma ParseAccepts(text: Text, v: Json, wholly: bool)
    requires CString(text) && IsText(text + [0], Begin(text), |text|, v) && Depth(v) <= NESTING_LIMIT
    ensures Parse(text, wholly) == Some(v)
  {
    hide IsValue, ParseValue, Skip, CString, Depth, AfterBom, NumChar;
    var s := text + [0];
    BeginIs(text);
    var a: nat, b: nat :| Ws(s, Begin(text), a) && IsValue(s, a, b, v) && Ws(s, b, |text|);
    ValueFirst(s, a, b, v);
    SkipWs(s, Begin(text), a);
    WsEnds(s, b, |text|);
    AcceptValue(s, a, b, v, 0);
    SkipWs(s, b, |text|);
  }

  /** If the end of the text does not matter, neither does what follows the value. */
  lemma ParsePrefix(text: Text, v: Json, a: nat, b: nat)
    requires CString(text) && Depth(v) <= NESTING_LIMIT && b <= |text|
    requires Ws(text + [0], Begin(text), a) && IsValue(text + [0], a, b, v) && (v.Num? ==> !NumChar((text + [0])[b]))
    ensures Parse(text, false) == Some(v)
  {
    hide IsValue, ParseValue, Skip, CString, Depth, AfterBom, NumChar;
    var s := text + [0];
    BeginIs(text);
    ValueFirst(s, a, b, v);
    SkipWs(s, Begin(text), a);
    AcceptValue(s, a, b, v, 0);
  }

  /** A text, in which every `\u` is followed by hexadecimal digits, is accepted as a whole
      exactly if it is one of the grammar, nested up to the limit, and is then read as its
      value. */
  lemma ParseIsExact(text: Text, v: Json)
    requires Plain(text + [0])
    ensures Parse(text, true) == Some(v) <==> IsText(text + [0], Begin(text), |text|, v) && Depth(v) <= NESTING_LIMIT
  {
    PlainIsC(text);
    if IsText(text + [0], Begin(text), |text|, v) && Depth(v) <= NESTING_LIMIT { ParseAccepts(text, v, true); }
    if Parse(text, true) == Some(v) { ParseSound(text, v); }
  }

  lemma PlainIsC(text: Text)
    requires Plain(text + [0])
    ensures CString(text)
  {
    forall i | 0 <= i < |text| ensures text[i] != 0 { assert (text + [0])[i] == text[i]; }
  }

  lemma ParseSound(text: Text, v: Json)
    requires Plain(text + [0]) && CString(text) && Parse(text, true) == Some(v)
    ensures IsText(text + [0], Begin(text), |text|, v) && Depth(v) <= NESTING_LIMIT
  {
    var s := text + [0];
    BeginIs(text);
    hide IsValue, ParseValue, Skip, CString, Depth, AfterBom;
    var a := Skip(s, Begin(text));
    SoundSkip(s, Begin(text));
    SoundValue(s, a, 0);
    var b := ParseValue(s, a, 0).end;
    SoundSkip(s, b);
    var z := Skip(s, b);
    assert z == |text|;
  }
}
