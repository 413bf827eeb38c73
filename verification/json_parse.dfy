/** The cJSON parser as a function of the text and the position in it. The text ends
    with its terminating zero, which counts as white space. */
module JsonParse {
  import opened Options
  import opened Bytes
  import opened JsonText

  /** A value read, and the position behind it. */
  datatype Parsed<T> = Fail | Done(value: T, end: nat)

  /** A C string with its terminating zero. */
  predicate Ended(s: Text) { s != [] && s[|s| - 1] == 0 }

  // ---- white space ---------------------------------------------------------------------

  function Blank(s: Text, p: nat): (q: nat)
    requires p <= |s|
    ensures p <= q <= |s| && (q < |s| ==> s[q] > 32)
    decreases |s| - p
  {
    if p < |s| && s[p] <= 32 then Blank(s, p + 1) else p
  }

  /** `buffer_skip_whitespace`: at the end of the text it steps back. */
  function Skip(s: Text, p: nat): (q: nat)
    requires p < |s|
    ensures p <= q < |s|
  {
    var q := Blank(s, p);
    if q == |s| then q - 1 else q
  }

  predicate Starts(s: Text, p: nat, lit: Text) { p + |lit| <= |s| && s[p..p + |lit|] == lit }

  // ---- strings -------------------------------------------------------------------------

  /** The closing quote of a string whose characters start at p, over escapes. */
  function StringEnd(s: Text, p: nat): (r: Option<nat>)
    requires p <= |s|
    ensures r.Some? ==> p <= r.value < |s| && s[r.value] == QUOTE
    decreases |s| - p
  {
    if p >= |s| then None
    else if s[p] == QUOTE then Some(p)
    else if s[p] == BACKSLASH then if p + 1 >= |s| then None else StringEnd(s, p + 2)
    else StringEnd(s, p + 1)
  }

  function HexValue(c: byte): Option<nat> {
    if 48 <= c <= 57 then Some(c - 48)
    else if 65 <= c <= 70 then Some(c - 55)
    else if 97 <= c <= 102 then Some(c - 87)
    else None
  }

  /** `parse_hex4`: anything that is not four hexadecimal digits reads as 0. */
  function Hex4(s: Text, p: nat): (h: nat)
    requires p + 4 <= |s|
    ensures h < 0x10000
  {
    var a, b, c, d := HexValue(s[p]), HexValue(s[p + 1]), HexValue(s[p + 2]), HexValue(s[p + 3]);
    if a.Some? && b.Some? && c.Some? && d.Some? then ((a.value * 16 + b.value) * 16 + c.value) * 16 + d.value else 0
  }

  /** UTF-8, section 3 of RFC 3629. */
  function Utf8(c: nat): (t: Text)
    requires c < 0x110000
    ensures 1 <= |t| <= 4
  {
    if c < 0x80 then [c]
    else if c < 0x800 then [0xC0 + c / 0x40, 0x80 + c % 0x40]
    else if c < 0x10000 then [0xE0 + c / 0x1000, 0x80 + c / 0x40 % 0x40, 0x80 + c % 0x40]
    else [0xF0 + c / 0x40000, 0x80 + c / 0x1000 % 0x40, 0x80 + c / 0x40 % 0x40, 0x80 + c % 0x40]
  }

  predicate High(u: nat) { 0xD800 <= u <= 0xDBFF }
  predicate Low(u: nat) { 0xDC00 <= u <= 0xDFFF }

  /** The code point of a surrogate pair, section 2.1 of RFC 2781. */
  function Pair(hi: nat, lo: nat): (c: nat)
    requires High(hi) && Low(lo)
    ensures 0x10000 <= c < 0x110000
  {
    0x10000 + hi % 0x400 * 0x400 + lo % 0x400
  }

  /** `utf16_literal_to_utf8` at i, in a string that ends at e: characters used and code point. */
  function Literal(s: Text, i: nat, e: nat): Parsed<nat>
    requires i < e < |s|
    ensures Literal(s, i, e).Done? ==> Literal(s, i, e).value < 0x110000 && (Literal(s, i, e).end == 6 || Literal(s, i, e).end == 12)
    ensures Literal(s, i, e).Done? ==> i + Literal(s, i, e).end <= e
  {
    if e - i < 6 then Fail
    else
      var first := Hex4(s, i + 2);
      if Low(first) then Fail
      else if High(first) then
        if e - (i + 6) < 6 || s[i + 6] != BACKSLASH || s[i + 7] != CHAR_U then Fail
        else
          var second := Hex4(s, i + 8);
          if Low(second) then Done(Pair(first, second), 12) else Fail
      else Done(first, 6)
  }

  /** The byte a two-character escape stands for. */
  function Simple(c: byte): Option<byte> {
    if c == 98 then Some(8)
    else if c == 102 then Some(12)
    else if c == 110 then Some(10)
    else if c == 114 then Some(13)
    else if c == 116 then Some(9)
    else if c == QUOTE || c == BACKSLASH || c == SLASH then Some(c)
    else None
  }

  /** The bytes that the characters from i up to e stand for. */
  function Unescape(s: Text, i: nat, e: nat): Option<Text>
    requires e < |s|
    decreases |s| - i
  {
    if i >= e then Some([])
    else if s[i] != BACKSLASH then Prepend([s[i]], Unescape(s, i + 1, e))
    else if s[i + 1] == CHAR_U then
      match Literal(s, i, e)
      case Fail => None
      case Done(c, n) => Prepend(Utf8(c), Unescape(s, i + n, e))
    else
      match Simple(s[i + 1])
      case None => None
      case Some(b) => Prepend([b], Unescape(s, i + 2, e))
  }

  function Prepend(t: Text, r: Option<Text>): Option<Text> {
    match r
    case None => None
    case Some(u) => Some(t + u)
  }

  /** `parse_string`. An escaped zero, or `\u` without hexadecimal digits, leaves a zero
      byte in the value: whoever reads it as a C string sees its end there. */
  function ParseString(s: Text, p: nat): (r: Parsed<Text>)
    requires Ended(s) && p < |s|
    ensures r.Done? ==> p < r.end < |s|
  {
    if s[p] != QUOTE then Fail
    else
      match StringEnd(s, p + 1)
      case None => Fail
      case Some(e) =>
        match Unescape(s, p + 1, e)
        case None => Fail
        case Some(t) => Done(t, e + 1)
  }

  // ---- numbers ---------------------------------------------------------------------------

  /** Characters copied for strtod, at most n. */
  function NumSpan(s: Text, p: nat, n: nat): (k: nat)
    requires p <= |s|
    ensures p + k <= |s| && k <= n && forall i :: p <= i < p + k ==> NumChar(s[i])
    decreases n
  {
    if n > 0 && p < |s| && NumChar(s[p]) then 1 + NumSpan(s, p + 1, n - 1) else 0
  }

  const NUM_BUFFER: nat := 63

  /** `parse_number` */
  function ParseNumber(s: Text, p: nat): (r: Parsed<Json>)
    requires Ended(s) && p < |s|
    ensures r.Done? ==> p < r.end < |s|
  {
    var t := s[p..p + NumSpan(s, p, NUM_BUFFER)];
    var n := NumLength(t);
    if n == 0 then Fail else Done(Num(t[..n]), p + n)
  }

  // ---- values ----------------------------------------------------------------------------

  /** `parse_value` at position p and nesting depth d. */
  function ParseValue(s: Text, p: nat, d: nat): (r: Parsed<Json>)
    requires Ended(s) && p < |s| && d <= NESTING_LIMIT
    ensures r.Done? ==> p < r.end < |s|
    decreases NESTING_LIMIT - d, |s| - p, 2
  {
    if Starts(s, p, NULL_TEXT) then Done(Null, p + 4)
    else if Starts(s, p, FALSE_TEXT) then Done(False, p + 5)
    else if Starts(s, p, TRUE_TEXT) then Done(True, p + 4)
    else if s[p] == QUOTE then
      match ParseString(s, p)
      case Fail => Fail
      case Done(t, e) => Done(Str(t), e)
    else if s[p] == 45 || Digit(s[p]) then ParseNumber(s, p)
    else if s[p] == LBRACKET then ParseArray(s, p, d)
    else if s[p] == LBRACE then ParseObject(s, p, d)
    else Fail
  }

  /** `parse_array` */
  function ParseArray(s: Text, p: nat, d: nat): (r: Parsed<Json>)
    requires Ended(s) && p < |s| && d <= NESTING_LIMIT && s[p] == LBRACKET
    ensures r.Done? ==> p < r.end < |s|
    decreases NESTING_LIMIT - d, |s| - p, 1
  {
    if d >= NESTING_LIMIT then Fail
    else
      var q := Skip(s, p + 1);
      if s[q] == RBRACKET then Done(Arr(NoItems), q + 1)
      else
        match ParseItems(s, q, d + 1)
        case Fail => Fail
        case Done(items, e) => Done(Arr(items), e)
  }

  function ParseItems(s: Text, p: nat, d: nat): (r: Parsed<Items>)
    requires Ended(s) && p < |s| && d <= NESTING_LIMIT
    ensures r.Done? ==> p < r.end < |s|
    decreases NESTING_LIMIT - d, |s| - p, 3
  {
    match ParseValue(s, Skip(s, p), d)
    case Fail => Fail
    case Done(v, e) =>
      var q := Skip(s, e);
      if s[q] == COMMA then
        match ParseItems(s, q + 1, d)
        case Fail => Fail
        case Done(rest, z) => Done(Item(v, rest), z)
      else if s[q] == RBRACKET then Done(Item(v, NoItems), q + 1)
      else Fail
  }

  /** `parse_object` */
  function ParseObject(s: Text, p: nat, d: nat): (r: Parsed<Json>)
    requires Ended(s) && p < |s| && d <= NESTING_LIMIT && s[p] == LBRACE
    ensures r.Done? ==> p < r.end < |s|
    decreases NESTING_LIMIT - d, |s| - p, 1
  {
    if d >= NESTING_LIMIT then Fail
    else
      var q := Skip(s, p + 1);
      if s[q] == RBRACE then Done(Obj(NoMembers), q + 1)
      else
        match ParseMembers(s, q, d + 1)
        case Fail => Fail
        case Done(members, e) => Done(Obj(members), e)
  }

  function ParseMembers(s: Text, p: nat, d: nat): (r: Parsed<Members>)
    requires Ended(s) && p < |s| && d <= NESTING_LIMIT
    ensures r.Done? ==> p < r.end < |s|
    decreases NESTING_LIMIT - d, |s| - p, 3
  {
    match ParseString(s, Skip(s, p))
    case Fail => Fail
    case Done(key, k) =>
      var c := Skip(s, k);
      if s[c] != COLON then Fail
      else
        match ParseValue(s, Skip(s, c + 1), d)
        case Fail => Fail
        case Done(v, e) =>
          var q := Skip(s, e);
          if s[q] == COMMA then
            match ParseMembers(s, q + 1, d)
            case Fail => Fail
            case Done(more, z) => Done(Member(key, v, more), z)
          else if s[q] == RBRACE then Done(Member(key, v, NoMembers), q + 1)
          else Fail
  }

  /** `skip_utf8_bom` */
  function AfterBom(s: Text): (p: nat)
    requires Ended(s)
    ensures p < |s|
  {
    if |s| > 4 && s[..3] == [0xEF, 0xBB, 0xBF] then 3 else 0
  }

  /** `cJSON_ParseWithOpts`; of the text C sees the part before the first zero. */
  function Parse(text: Text, wholly: bool): Option<Json> {
    var s := Seen(text) + [0];
    match ParseValue(s, Skip(s, AfterBom(s)), 0)
    case Fail => None
    case Done(v, e) => if wholly && s[Skip(s, e)] != 0 then None else Some(v)
  }
}
