/** The parser as it works: a cursor over the text, and buffers for what it reads. */
module JsonParser {
  import opened BitOps
  import opened Options
  import opened Bytes
  import opened JsonText
  import opened JsonParse
  import opened JsonGrammar
  import opened JsonUnicode

  // ---- lists built element by element ------------------------------------------------------

  /** The elements attached so far, in front of what is still to come. */
  function Attach(list: seq<Json>, rest: Items): Items {
    if list == [] then rest else Item(list[0], Attach(list[1..], rest))
  }

  function AttachMembers(list: seq<(Text, Json)>, rest: Members): Members {
    if list == [] then rest else Member(list[0].0, list[0].1, AttachMembers(list[1..], rest))
  }

  function Continue(list: seq<Json>, r: Parsed<Items>): Parsed<Items> {
    match r
    case Fail => Fail
    case Done(rest, e) => Done(Attach(list, rest), e)
  }

  function ContinueMembers(list: seq<(Text, Json)>, r: Parsed<Members>): Parsed<Members> {
    match r
    case Fail => Fail
    case Done(rest, e) => Done(AttachMembers(list, rest), e)
  }

  lemma {:induction false} AttachOne(list: seq<Json>, v: Json, rest: Items)
    ensures Attach(list + [v], rest) == Attach(list, Item(v, rest))
  {
    if list == [] {
      assert (list + [v])[1..] == [];
    } else {
      AttachOne(list[1..], v, rest);
      assert (list + [v])[1..] == list[1..] + [v];
    }
  }

  lemma {:induction false} AttachOneMember(list: seq<(Text, Json)>, key: Text, v: Json, rest: Members)
    ensures AttachMembers(list + [(key, v)], rest) == AttachMembers(list, Member(key, v, rest))
  {
    if list == [] {
      assert (list + [(key, v)])[1..] == [];
    } else {
      AttachOneMember(list[1..], key, v, rest);
      assert (list + [(key, v)])[1..] == list[1..] + [(key, v)];
    }
  }

  /** One more element read. */
  lemma ItemsStep(s: Text, p: nat, d: nat, list: seq<Json>, v: Json, e: nat)
    requires Ended(s) && p < |s| && d <= NESTING_LIMIT && ParseValue(s, Skip(s, p), d) == Done(v, e)
    ensures var q := Skip(s, e);
      Continue(list, ParseItems(s, p, d)) ==
        if s[q] == COMMA then Continue(list + [v], ParseItems(s, q + 1, d))
        else if s[q] == RBRACKET then Done(Attach(list + [v], NoItems), q + 1) else Fail
  {
    hide Attach, ParseValue, Skip;
    var q := Skip(s, e);
    if s[q] == COMMA {
      match ParseItems(s, q + 1, d)
      case Fail =>
      case Done(rest, z) => AttachOne(list, v, rest);
    } else {
      AttachOne(list, v, NoItems);
    }
  }

  lemma MembersStep(s: Text, p: nat, d: nat, list: seq<(Text, Json)>, m: (Text, Json), e: nat)
    requires Ended(s) && p < |s| && d <= NESTING_LIMIT && OneMember(s, p, d) == Done(m, e)
    ensures var q := Skip(s, e);
      ContinueMembers(list, ParseMembers(s, p, d)) ==
        if s[q] == COMMA then ContinueMembers(list + [m], ParseMembers(s, q + 1, d))
        else if s[q] == RBRACE then Done(AttachMembers(list + [m], NoMembers), q + 1) else Fail
  {
    hide AttachMembers, ParseValue, ParseString, Skip;
    var q := Skip(s, e);
    if s[q] == COMMA {
      match ParseMembers(s, q + 1, d)
      case Fail =>
      case Done(rest, z) => AttachOneMember(list, m.0, m.1, rest);
    } else {
      AttachOneMember(list, m.0, m.1, NoMembers);
    }
  }

  /** `(c | 0x80) & 0xBF`: six bits of a code point in a byte. */
  lemma TailBits(c: nat)
    ensures And(Or(c, 0x80), 0xBF) == 0x80 + c % 0x40
  {
    var q, r := c / 0x40, c % 0x40;
    ShlIs(q); ShlIs(1); ShlIs(2); ShlIs(Or(q, 2));
    OrHigh(q, r, 2, 6);
    AndMasks(Or(q, 2), r, 2, 6);
    SecondBit(q);
  }

  lemma SecondBit(q: nat)
    ensures And(Or(q, 2), 2) == 2
  {
    var y := Or(q, 2);
    assert y / 2 == Or(q / 2, 1) && Or(q / 2, 1) % 2 == 1;
    hide Or;
    AndEven(y, 1);
    AndOdd(y / 2, 0);
    AndZero(y / 2 / 2);
  }

  /** `(c | mark) & 0xFF`: what is left of a code point in the first byte. */
  lemma LeadBits(c: nat, length: nat)
    requires (length == 2 && c < 0x20) || (length == 3 && c < 0x10) || (length == 4 && c < 8)
    ensures And(Or(c, Mark(length)), 0xFF) == Mark(length) + c
  {
    hide And, Or;
    var k := 7 - length;
    var m := if length == 2 then 6 else if length == 3 then 14 else 30;
    ShlIs(0); ShlIs(1); ShlIs(m);
    OrHigh(0, c, m, k);
    OrZero(m);
    KeepByte(Mark(length) + c);
  }

  lemma KeepByte(v: nat)
    requires v < 0x100
    ensures And(v, 0xFF) == v
  {
    hide Shl;
    ShlIs(0); ShlIs(1);
    AndMasks(0, v, 0, 8);
  }

  /** `c & 0x7F` */
  lemma KeepSeven(c: nat)
    requires c < 0x80
    ensures And(c, 0x7F) == c
  {
    hide Shl;
    ShlIs(0); ShlIs(1);
    AndMasks(0, c, 0, 7);
  }

  /** `((a & 0x3FF) << 10) | (b & 0x3FF)`: ten bits of each half of a surrogate pair. */
  lemma PairBits(a: nat, b: nat)
    ensures Or(Shl(And(a, 0x3FF), 10), And(b, 0x3FF)) == a % 0x400 * 0x400 + b % 0x400
  {
    TenBits(a);
    TenBits(b);
    hide And, Or, Shl;
    ShlIs(1); ShlIs(a % 0x400);
    OrLow(a % 0x400, b % 0x400, 10);
  }

  lemma TenBits(a: nat)
    ensures And(a, 0x3FF) == a % 0x400
  {
    ShlIs(0); ShlIs(1); ShlIs(a / 0x400);
    hide Shl;
    AndMasks(a / 0x400, a % 0x400, 0, 10);
    AndZero(a / 0x400);
  }

  lemma PrependNothing(r: Option<Text>)
    ensures Prepend([], r) == r
  {
    if r.Some? { assert [] + r.value == r.value; }
  }

  lemma UnescapeStep(s: Text, i: nat, e: nat, pre: Text, t: Text, n: nat)
    requires i < e < |s| && Unescape(s, i, e) == Prepend(t, Unescape(s, i + n, e))
    ensures Prepend(pre, Unescape(s, i, e)) == Prepend(pre + t, Unescape(s, i + n, e))
  {
    hide Unescape;
    match Unescape(s, i + n, e)
    case None =>
    case Some(u) => assert pre + (t + u) == pre + t + u;
  }

  class Buffer {
    const content: Text
    var offset: nat
    var depth: nat

    ghost predicate Valid()
      reads this
    {
      Ended(content) && offset < |content| && depth <= NESTING_LIMIT
    }

    constructor (text: Text)
      ensures Valid() && content == text + [0] && offset == 0 && depth == 0
    {
      content := text + [0];
      offset, depth := 0, 0;
    }

    /** `buffer_skip_whitespace` */
    method SkipWhitespace()
      requires Valid()
      modifies `offset
      ensures Valid() && offset == Skip(content, old(offset))
    {
      while offset < |content| && content[offset] <= 32
        invariant old(offset) <= offset <= |content| && Blank(content, old(offset)) == Blank(content, offset)
        decreases |content| - offset
      {
        offset := offset + 1;
      }
      if offset == |content| { offset := offset - 1; }
    }

    /** `skip_utf8_bom` at the start of the text. */
    method SkipUtf8Bom()
      requires Valid() && offset == 0
      modifies `offset
      ensures Valid() && offset == AfterBom(content)
    {
      if offset + 4 < |content| && content[offset..offset + 3] == [0xEF, 0xBB, 0xBF] {
        offset := offset + 3;
      }
    }

    /** `parse_hex4` */
    method ParseHex4(p: nat) returns (h: nat)
      requires p + 4 <= |content|
      ensures h == Hex4(content, p)
      ensures forall u :: FourHex(content, p, u) ==> h == u
      ensures !HexDigits(content, p) ==> h == 0
    {
      if !HexDigits(content, p) { BadHex(content, p); }
      forall u | FourHex(content, p, u) ensures Hex4(content, p) == u { HexReads(content, p, u); }
      hide IsHex, HexChar;
      h := 0;
      var i := 0;
      while i < 4
        invariant 0 <= i <= 4 && (forall k :: p <= k < p + i ==> HexValue(content[k]).Some?)
        invariant h == HexSoFar(content, p, i)
      {
        var c := content[p + i];
        if 48 <= c <= 57 {
          h := h + (c - 48);
        } else if 65 <= c <= 70 {
          h := h + 10 + (c - 65);
        } else if 97 <= c <= 102 {
          h := h + 10 + (c - 97);
        } else {
          return 0;
        }
        if i < 3 { h := h * 16; }
        i := i + 1;
      }
    }

    /** `utf16_literal_to_utf8`: writes behind o and returns how many characters it used,
        0 for a literal that is none. */
    method Utf16LiteralToUtf8(i: nat, e: nat, output: array<byte>, o: nat) returns (used: nat, o1: nat)
      requires i < e < |content|
      requires Literal(content, i, e).Done? ==> o + |Utf8(Literal(content, i, e).value)| <= output.Length
      modifies output
      ensures used == 0 <==> Literal(content, i, e).Fail?
      ensures var r := Literal(content, i, e); r.Done? ==>
        used == r.end && o1 == o + |Utf8(r.value)| && o1 <= output.Length && output[..o1] == old(output[..o]) + Utf8(r.value)
    {
      hide Utf8, Hex4, Or, And, Shl, FourHex, HexDigits;
      used, o1 := 0, o;
      if e - i < 6 { return; }
      var first := ParseHex4(i + 2);
      if 0xDC00 <= first <= 0xDFFF { return; }
      var codepoint, length := first, 6;
      if 0xD800 <= first <= 0xDBFF {
        var second := i + 6;
        if e - second < 6 { return; }
        if content[second] != BACKSLASH || content[second + 1] != CHAR_U { return; }
        var code := ParseHex4(second + 2);
        if code < 0xDC00 || code > 0xDFFF { return; }
        length := 12;
        PairBits(first, code);
        codepoint := 0x10000 + Or(Shl(And(first, 0x3FF), 10), And(code, 0x3FF));
      }
      o1 := EncodeUtf8(codepoint, output, o);
      used := length;
    }

    /** Bytes a code point takes in UTF-8, and the mark of the first one. */
    method Utf8Length(c: nat) returns (length: nat, mark: nat)
      requires c < 0x110000
      ensures length == |Utf8(c)| && mark == Mark(length) && 1 <= length <= 4
    {
      if c < 0x80 {
        length, mark := 1, 0;
      } else if c < 0x800 {
        length, mark := 2, 0xC0;
      } else if c < 0x10000 {
        length, mark := 3, 0xE0;
      } else {
        length, mark := 4, 0xF0;
      }
    }

    /** The UTF-8 half of `utf16_literal_to_utf8`: trailing bytes first. */
    method EncodeUtf8(c: nat, output: array<byte>, o: nat) returns (o1: nat)
      requires c < 0x110000 && o + |Utf8(c)| <= output.Length
      modifies output
      ensures o1 == o + |Utf8(c)| && output[..o1] == old(output[..o]) + Utf8(c)
    {
      hide Utf8, Shifted, Or, And;
      var length, mark := Utf8Length(c);
      ghost var t := Utf8(c);
      ShiftedNone(c);
      var codepoint, k := c, length - 1;
      while k > 0
        invariant 0 <= k < length && codepoint == Shifted(c, length - 1 - k)
        invariant forall j :: k < j < length ==> output[o + j] == t[j]
        invariant forall j :: 0 <= j < o ==> output[j] == old(output[j])
      {
        TailByte(c, length, k);
        TailBits(codepoint);
        output[o + k] := And(Or(codepoint, 0x80), 0xBF);
        ShiftedIs(c, length - 1 - k);
        codepoint := codepoint / 0x40;
        k := k - 1;
      }
      LeadByte(c, length);
      if length > 1 { LeadBits(codepoint, length); } else { KeepSeven(codepoint); }
      output[o] := if length > 1 then And(Or(codepoint, mark), 0xFF) else And(codepoint, 0x7F);
      o1 := o + length;
      assert forall j :: 0 <= j < length ==> output[o + j] == t[j];
    }

    /** The scan to the closing quote; counts the escapes on the way. */
    method FindStringEnd(p: nat) returns (found: bool, e: nat, skipped: nat)
      requires Valid() && p <= |content|
      ensures found <==> StringEnd(content, p).Some?
      ensures found ==> StringEnd(content, p) == Some(e) && skipped == Skipped(content, p, e)
    {
      e, skipped := p, 0;
      while e < |content| && content[e] != QUOTE
        invariant p <= e <= |content| && StringEnd(content, p) == StringEnd(content, e)
        invariant StringEnd(content, e).Some? ==> Skipped(content, p, StringEnd(content, e).value) == skipped + Skipped(content, e, StringEnd(content, e).value)
        decreases |content| - e
      {
        if content[e] == BACKSLASH {
          if e + 1 >= |content| { return false, e, skipped; }
          skipped := skipped + 1;
          e := e + 1;
        }
        e := e + 1;
      }
      found := e < |content|;
    }

    /** `parse_string` */
    method ReadString() returns (r: Option<Text>)
      requires Valid()
      modifies `offset
      ensures var spec := ParseString(content, old(offset));
        if spec.Done? then Valid() && r == Some(spec.value) && offset == spec.end else r == None
    {
      hide Unescape, Room, Skipped, StringEnd;
      var p := offset;
      if content[p] != QUOTE { return None; }
      var found, e, skipped := FindStringEnd(p + 1);
      if !found { return None; }
      RoomIs(content, p + 1, e);
      r := UnescapeInto(p + 1, e, e - p - skipped);
      if r.Some? { offset := e + 1; }
    }

    /** The second loop of `parse_string`, into a buffer of the reserved size and one byte more. */
    method UnescapeInto(p: nat, e: nat, reserved: nat) returns (r: Option<Text>)
      requires Valid() && p <= e < |content| && content[e] == QUOTE && Room(content, p, e) < reserved
      modifies `offset
      ensures r == Unescape(content, p, e)
      ensures r.None? || offset == old(offset)
    {
      hide Unescape, Room, Utf8, Literal, Simple;
      var output := new byte[reserved + 1];
      var i, o: nat := p, 0;
      PrependNothing(Unescape(content, i, e));
      assert output[..0] == [];
      while i < e
        invariant p <= i <= |content| && o + Room(content, i, e) < reserved
        invariant Unescape(content, p, e) == Prepend(output[..o], Unescape(content, i, e))
        invariant offset == old(offset)
        decreases |content| - i
      {
        ghost var done := output[..o];
        if content[i] != BACKSLASH {
          StepPlain(content, i, e, done);
          output[o] := content[i];
          assert output[..o + 1] == done + [content[i]];
          i, o := i + 1, o + 1;
        } else if content[i + 1] == CHAR_U {
          StepLiteral(content, i, e, done);
          var used, o1 := Utf16LiteralToUtf8(i, e, output, o);
          if used == 0 {
            offset := i;
            return None;
          }
          i, o := i + used, o1;
        } else {
          var b := Simple(content[i + 1]);
          StepSimple(content, i, e, done);
          if b.None? {
            offset := i;
            return None;
          }
          output[o] := b.value;
          assert output[..o + 1] == done + [b.value];
          i, o := i + 2, o + 1;
        }
      }
      UnescapeEnd(content, i, e);
      output[o] := 0;
      r := Some(output[..o]);
      PrependDone(output[..o]);
    }

    /** `parse_number`: at most 63 characters go through a buffer to strtod. */
    method ReadNumber() returns (r: Option<Json>)
      requires Valid()
      modifies `offset
      ensures Matches(r, ParseNumber(content, old(offset)))
    {
      hide NumLength, NumSpan, NumChar;
      var copied := CopyNumber();
      var length := NumLength(copied);
      if length == 0 { return None; }
      r := Some(Num(copied[..length]));
      offset := offset + length;
    }

    /** The characters handed to strtod. */
    method CopyNumber() returns (copied: Text)
      requires Valid()
      ensures copied == content[offset..offset + NumSpan(content, offset, NUM_BUFFER)]
    {
      hide NumChar, NumSpan;
      copied := [];
      var i := 0;
      while i < NUM_BUFFER && offset + i < |content| && NumChar(content[offset + i])
        invariant 0 <= i <= NUM_BUFFER && offset + i <= |content| && copied == content[offset..offset + i]
        invariant NumSpan(content, offset, NUM_BUFFER) == i + NumSpan(content, offset + i, NUM_BUFFER - i)
      {
        SpanGoesOn(content, offset + i, NUM_BUFFER - i);
        OneMore(content, offset, offset + i);
        copied := copied + [content[offset + i]];
        i := i + 1;
      }
      SpanEnds(content, offset + i, NUM_BUFFER - i);
    }

    /** A result, and where the cursor is left on success. */
    ghost predicate Matches(r: Option<Json>, spec: Parsed<Json>)
      reads this
    {
      if spec.Done? then r == Some(spec.value) && offset == spec.end && Valid() else r == None
    }

    method Read(lit: Text) returns (found: bool)
      requires Valid()
      ensures found == Starts(content, offset, lit)
    {
      found := offset + |lit| <= |content| && content[offset..offset + |lit|] == lit;
    }

    /** `parse_value` */
    method ReadValue() returns (r: Option<Json>)
      requires Valid()
      modifies this
      ensures Matches(r, ParseValue(content, old(offset), old(depth)))
      ensures r.Some? ==> depth == old(depth)
      decreases NESTING_LIMIT - depth, |content| - offset, 2
    {
      hide Starts, ParseString, ParseNumber, ParseArray, ParseObject;
      var isNull := Read(NULL_TEXT);
      if isNull {
        StartsInside(content, offset, NULL_TEXT);
        offset := offset + 4;
        return Some(Null);
      }
      var isFalse := Read(FALSE_TEXT);
      if isFalse {
        StartsInside(content, offset, FALSE_TEXT);
        offset := offset + 5;
        return Some(False);
      }
      var isTrue := Read(TRUE_TEXT);
      if isTrue {
        StartsInside(content, offset, TRUE_TEXT);
        offset := offset + 4;
        return Some(True);
      }
      if content[offset] == QUOTE {
        var t := ReadString();
        return if t.Some? then Some(Str(t.value)) else None;
      }
      if content[offset] == 45 || Digit(content[offset]) {
        r := ReadNumber();
        return;
      }
      if content[offset] == LBRACKET {
        r := ReadArray();
        return;
      }
      if content[offset] == LBRACE {
        r := ReadObject();
        return;
      }
      r := None;
    }

    /** `parse_array` */
    method ReadArray() returns (r: Option<Json>)
      requires Valid() && content[offset] == LBRACKET
      modifies this
      ensures Matches(r, ParseArray(content, old(offset), old(depth)))
      ensures r.Some? ==> depth == old(depth)
      decreases NESTING_LIMIT - depth, |content| - offset, 1
    {
      hide Attach, ParseValue, ParseItems, Skip;
      if depth >= NESTING_LIMIT { return None; }
      depth := depth + 1;
      offset := offset + 1;
      SkipWhitespace();
      if content[offset] == RBRACKET {
        NotTheEnd(content, offset);
        depth := depth - 1;
        offset := offset + 1;
        return Some(Arr(NoItems));
      }
      ghost var p := offset;
      var list: seq<Json> := [];
      ContinueNothing(ParseItems(content, p, depth));
      while true
        invariant Valid() && depth == old(depth) + 1
        invariant ParseItems(content, p, depth) == Continue(list, ParseItems(content, offset, depth))
        decreases |content| - offset
      {
        ghost var at := offset;
        ItemFails(content, at, depth, list);
        SkipWhitespace();
        var v := ReadValue();
        if v.None? { return None; }
        ghost var e := offset;
        SkipWhitespace();
        ItemsStep(content, at, depth, list, v.value, e);
        list := list + [v.value];
        if content[offset] != COMMA { break; }
        NotTheEnd(content, offset);
        offset := offset + 1;
      }
      if content[offset] != RBRACKET { return None; }
      NotTheEnd(content, offset);
      depth := depth - 1;
      offset := offset + 1;
      r := Some(Arr(Attach(list, NoItems)));
    }

    /** `parse_object` */
    method ReadObject() returns (r: Option<Json>)
      requires Valid() && content[offset] == LBRACE
      modifies this
      ensures Matches(r, ParseObject(content, old(offset), old(depth)))
      ensures r.Some? ==> depth == old(depth)
      decreases NESTING_LIMIT - depth, |content| - offset, 1
    {
      hide AttachMembers, ParseMembers, OneMember, Skip;
      if depth >= NESTING_LIMIT { return None; }
      depth := depth + 1;
      offset := offset + 1;
      SkipWhitespace();
      if content[offset] == RBRACE {
        NotTheEnd(content, offset);
        depth := depth - 1;
        offset := offset + 1;
        return Some(Obj(NoMembers));
      }
      ghost var p := offset;
      var list: seq<(Text, Json)> := [];
      ContinueNoMembers(ParseMembers(content, p, depth));
      while true
        invariant Valid() && depth == old(depth) + 1
        invariant ParseMembers(content, p, depth) == ContinueMembers(list, ParseMembers(content, offset, depth))
        decreases |content| - offset
      {
        ghost var at := offset;
        MemberFails(content, at, depth, list);
        var m := ReadMember();
        if m.None? { return None; }
        ghost var e := offset;
        SkipWhitespace();
        MembersStep(content, at, depth, list, m.value, e);
        list := list + [m.value];
        if content[offset] != COMMA { break; }
        NotTheEnd(content, offset);
        offset := offset + 1;
      }
      if content[offset] != RBRACE { return None; }
      NotTheEnd(content, offset);
      depth := depth - 1;
      offset := offset + 1;
      r := Some(Obj(AttachMembers(list, NoMembers)));
    }

    /** One name, its colon and its value. */
    method ReadMember() returns (r: Option<(Text, Json)>)
      requires Valid()
      modifies this
      ensures var spec := OneMember(content, old(offset), old(depth));
        if spec.Done? then r == Some(spec.value) && offset == spec.end && Valid() else r == None
      ensures r.Some? ==> depth == old(depth)
      decreases NESTING_LIMIT - depth, |content| - offset, 3
    {
      hide ParseValue, ParseString, Skip;
      SkipWhitespace();
      var key := ReadString();
      if key.None? { return None; }
      SkipWhitespace();
      if content[offset] != COLON { return None; }
      NotTheEnd(content, offset);
      offset := offset + 1;
      SkipWhitespace();
      var v := ReadValue();
      if v.None? { return None; }
      r := Some((key.value, v.value));
    }
  }

  function OneMember(s: Text, p: nat, d: nat): (r: Parsed<(Text, Json)>)
    requires Ended(s) && p < |s| && d <= NESTING_LIMIT
    ensures r.Done? ==> p < r.end < |s|
  {
    match ParseString(s, Skip(s, p))
    case Fail => Fail
    case Done(key, k) =>
      var c := Skip(s, k);
      if s[c] != COLON then Fail
      else
        match ParseValue(s, Skip(s, c + 1), d)
        case Fail => Fail
        case Done(v, e) => Done((key, v), e)
  }

  lemma ItemFails(s: Text, p: nat, d: nat, list: seq<Json>)
    requires Ended(s) && p < |s| && d <= NESTING_LIMIT
    ensures ParseValue(s, Skip(s, p), d).Fail? ==> Continue(list, ParseItems(s, p, d)) == Fail
  {
    hide ParseValue, Skip, Attach;
  }

  method Strlen(text: Text) returns (n: nat)
    ensures n <= |text| && text[..n] == Seen(text)
  {
    n := 0;
    while n < |text| && text[n] != 0
      invariant n <= |text| && forall i :: 0 <= i < n ==> text[i] != 0
    {
      n := n + 1;
    }
    SeenPrefix(text, n);
  }

  /** `cJSON_ParseWithOpts` */
  method ParseWithOpts(text: Text, wholly: bool) returns (r: Option<Json>)
    ensures r == Parse(text, wholly)
  {
    hide ParseValue, Skip;
    var length := Strlen(text);
    var buffer := new Buffer(text[..length]);
    buffer.SkipUtf8Bom();
    buffer.SkipWhitespace();
    r := buffer.ReadValue();
    if r.Some? && wholly {
      buffer.SkipWhitespace();
      if buffer.content[buffer.offset] != 0 { r := None; }
    }
  }

  lemma OneMore(s: Text, i: nat, j: nat)
    requires i <= j < |s|
    ensures s[i..j] + [s[j]] == s[i..j + 1]
  {
  }

  lemma SpanGoesOn(s: Text, p: nat, n: nat)
    requires p < |s| && n > 0 && NumChar(s[p])
    ensures NumSpan(s, p, n) == 1 + NumSpan(s, p + 1, n - 1)
  {
  }

  lemma SpanEnds(s: Text, p: nat, n: nat)
    requires p <= |s| && (n == 0 || p == |s| || !NumChar(s[p]))
    ensures NumSpan(s, p, n) == 0
  {
  }

  lemma StartsInside(s: Text, p: nat, lit: Text)
    requires Ended(s) && Starts(s, p, lit) && |lit| > 0 && lit[|lit| - 1] != 0
    ensures p + |lit| < |s|
  {
    assert s[p..p + |lit|][|lit| - 1] == lit[|lit| - 1];
  }

  lemma NotTheEnd(s: Text, p: nat)
    requires Ended(s) && p < |s| && s[p] != 0
    ensures p + 1 < |s|
  {
  }

  lemma ContinueNothing(r: Parsed<Items>)
    ensures Continue([], r) == r
  {
  }

  lemma ContinueNoMembers(r: Parsed<Members>)
    ensures ContinueMembers([], r) == r
  {
  }

  /** A member that cannot be read fails the object. */
  lemma MemberFails(s: Text, p: nat, d: nat, list: seq<(Text, Json)>)
    requires Ended(s) && p < |s| && d <= NESTING_LIMIT
    ensures OneMember(s, p, d).Fail? ==> ContinueMembers(list, ParseMembers(s, p, d)) == Fail
  {
    hide ParseString, ParseValue, Skip, AttachMembers;
  }

  lemma StepPlain(s: Text, i: nat, e: nat, pre: Text)
    requires i < e < |s| && s[i] != BACKSLASH
    ensures Prepend(pre, Unescape(s, i, e)) == Prepend(pre + [s[i]], Unescape(s, i + 1, e))
    ensures Room(s, i, e) == 1 + Room(s, i + 1, e)
  {
    UnescapeStep(s, i, e, pre, [s[i]], 1);
  }

  lemma StepLiteral(s: Text, i: nat, e: nat, pre: Text)
    requires i < e < |s| && s[i] == BACKSLASH && s[i + 1] == CHAR_U
    ensures var r := Literal(s, i, e); r.Fail? ==> Prepend(pre, Unescape(s, i, e)) == None
    ensures var r := Literal(s, i, e); r.Done? ==>
      i + r.end <= e && |Utf8(r.value)| + Room(s, i + r.end, e) <= Room(s, i, e)
    ensures var r := Literal(s, i, e); r.Done? ==>
      Prepend(pre, Unescape(s, i, e)) == Prepend(pre + Utf8(r.value), Unescape(s, i + r.end, e))
  {
    var r := Literal(s, i, e);
    if r.Done? {
      LiteralFits(s, i, e);
      UnescapeStep(s, i, e, pre, Utf8(r.value), r.end);
    }
  }

  lemma StepSimple(s: Text, i: nat, e: nat, pre: Text)
    requires i < e < |s| && s[i] == BACKSLASH && s[i + 1] != CHAR_U && s[e] == QUOTE
    ensures var b := Simple(s[i + 1]);
      if b.None? then Prepend(pre, Unescape(s, i, e)) == None
      else i + 2 <= |s| && Prepend(pre, Unescape(s, i, e)) == Prepend(pre + [b.value], Unescape(s, i + 2, e))
    ensures Room(s, i, e) == 1 + Room(s, i + 2, e)
  {
    var b := Simple(s[i + 1]);
    if b.Some? { UnescapeStep(s, i, e, pre, [b.value], 2); }
  }

  lemma UnescapeEnd(s: Text, i: nat, e: nat)
    requires e <= i && e < |s|
    ensures Unescape(s, i, e) == Some([])
  {
  }

  lemma PrependDone(t: Text)
    ensures Prepend(t, Some([])) == Some(t)
  {
    assert t + [] == t;
  }

  /** What the digits read so far are worth, shifted for the next one. */
  function HexSoFar(s: Text, p: nat, i: nat): nat
    requires p + 4 <= |s| && i <= 4 && forall k :: p <= k < p + i ==> HexValue(s[k]).Some?
  {
    if i == 0 then 0
    else if i == 1 then HexValue(s[p]).value * 16
    else if i == 2 then (HexValue(s[p]).value * 16 + HexValue(s[p + 1]).value) * 16
    else if i == 3 then ((HexValue(s[p]).value * 16 + HexValue(s[p + 1]).value) * 16 + HexValue(s[p + 2]).value) * 16
    else ((HexValue(s[p]).value * 16 + HexValue(s[p + 1]).value) * 16 + HexValue(s[p + 2]).value) * 16 + HexValue(s[p + 3]).value
  }

  /** A code point without its lowest n groups of six bits. */
  function Shifted(c: nat, n: nat): nat {
    if n == 0 then c else Shifted(c, n - 1) / 0x40
  }

  lemma ShiftedNone(c: nat)
    ensures Shifted(c, 0) == c
  {
  }

  lemma ShiftedIs(c: nat, n: nat)
    requires n < 3
    ensures Shifted(c, 1) == c / 0x40 && Shifted(c, 2) == c / 0x1000 && Shifted(c, 3) == c / 0x40000
    ensures Shifted(c, n) / 0x40 == Shifted(c, n + 1)
  {
    assert Shifted(c, 0) == c;
    assert Shifted(c, 1) == Shifted(c, 0) / 0x40;
    assert Shifted(c, 2) == Shifted(c, 1) / 0x40;
    assert Shifted(c, 3) == Shifted(c, 2) / 0x40;
  }

  lemma TailByte(c: nat, length: nat, k: nat)
    requires c < 0x110000 && length == |Utf8(c)| && 0 < k < length
    ensures Utf8(c)[k] == 0x80 + Shifted(c, length - 1 - k) % 0x40
  {
    ShiftedIs(c, 0);
    assert Shifted(c, 0) == c;
  }

  /** `first_byte_mark` */
  function Mark(length: nat): nat { if length <= 1 then 0 else if length == 2 then 0xC0 else if length == 3 then 0xE0 else 0xF0 }

  lemma LeadByte(c: nat, length: nat)
    requires c < 0x110000 && length == |Utf8(c)|
    ensures Utf8(c)[0] == Mark(length) + Shifted(c, length - 1)
    ensures Shifted(c, length - 1) < (if length == 1 then 0x80 else if length == 2 then 0x20 else if length == 3 then 0x10 else 8)
  {
    ShiftedIs(c, 0);
    assert Shifted(c, 0) == c;
  }
}
