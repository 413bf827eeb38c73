/** JSON trees and the text cJSON prints for them. */
module JsonText {
  import opened Bytes

  type Text = seq<byte>

  /** A cJSON item. Children are linked lists. Numbers are kept as their text. */
  datatype Json =
    | Null
    | False
    | True
    | Num(text: Text)
    | Str(bytes: Text)
    | Arr(items: Items)
    | Obj(members: Members)

  datatype Items = NoItems | Item(value: Json, rest: Items)
  datatype Members = NoMembers | Member(key: Text, val: Json, more: Members)

  /** CJSON_NESTING_LIMIT */
  const NESTING_LIMIT: nat := 1000

  const QUOTE: byte := 34
  const BACKSLASH: byte := 92
  const SLASH: byte := 47
  const LBRACKET: byte := 91
  const RBRACKET: byte := 93
  const LBRACE: byte := 123
  const RBRACE: byte := 125
  const COMMA: byte := 44
  const COLON: byte := 58
  const SPACE: byte := 32
  const TAB: byte := 9
  const NEWLINE: byte := 10
  const CHAR_U: byte := 117

  const NULL_TEXT: Text := [110, 117, 108, 108]
  const FALSE_TEXT: Text := [102, 97, 108, 115, 101]
  const TRUE_TEXT: Text := [116, 114, 117, 101]

  // ---- strings ---------------------------------------------------------------------------

  /** The letter of a two-character escape, 0 if there is none. */
  function Letter(c: byte): byte {
    if c == QUOTE then QUOTE
    else if c == BACKSLASH then BACKSLASH
    else if c == 8 then 98
    else if c == 12 then 102
    else if c == 10 then 110
    else if c == 13 then 114
    else if c == 9 then 116
    else 0
  }

  /** Lower-case hexadecimal digit. */
  function Hex(d: nat): byte
    requires d < 16
  {
    if d < 10 then 48 + d else 87 + d
  }

  /** How `print_string_ptr` writes one byte. */
  function Escape(c: byte): Text {
    if Letter(c) != 0 then [BACKSLASH, Letter(c)]
    else if c < 32 then [BACKSLASH, CHAR_U, 48, 48, Hex(c / 16), Hex(c % 16)]
    else [c]
  }

  function EscapeAll(s: Text): Text {
    if s == [] then [] else Escape(s[0]) + EscapeAll(s[1..])
  }

  function Quote(s: Text): Text { [QUOTE] + EscapeAll(s) + [QUOTE] }

  // ---- values ----------------------------------------------------------------------------

  function Tabs(n: nat): (t: Text)
    ensures |t| == n && forall i :: 0 <= i < n ==> t[i] == TAB
  {
    if n == 0 then [] else [TAB] + Tabs(n - 1)
  }

  /** What `print_value` writes, formatted or not, at a nesting depth. */
  function Print(v: Json, format: bool, depth: nat): Text
    decreases v
  {
    match v
    case Null => NULL_TEXT
    case False => FALSE_TEXT
    case True => TRUE_TEXT
    case Num(text) => text
    case Str(bytes) => Quote(bytes)
    case Arr(items) => [LBRACKET] + PrintItems(items, format, depth + 1) + [RBRACKET]
    case Obj(members) =>
      [LBRACE] + (if format then [NEWLINE] else []) + PrintMembers(members, format, depth + 1)
      + (if format then Tabs(depth) else []) + [RBRACE]
  }

  function PrintItems(items: Items, format: bool, depth: nat): Text
    decreases items
  {
    match items
    case NoItems => []
    case Item(v, rest) => Print(v, format, depth) + ItemEnd(rest, format) + PrintItems(rest, format, depth)
  }

  /** What separates an array element from the next one, if there is one. */
  function ItemEnd(rest: Items, format: bool): Text {
    if rest.NoItems? then [] else if format then [COMMA, SPACE] else [COMMA]
  }

  function PrintMembers(members: Members, format: bool, depth: nat): Text
    decreases members
  {
    match members
    case NoMembers => []
    case Member(key, v, more) =>
      (if format then Tabs(depth) else []) + Quote(key) + (if format then [COLON, TAB] else [COLON])
      + Print(v, format, depth) + MemberEnd(more, format) + PrintMembers(more, format, depth)
  }

  function MemberEnd(more: Members, format: bool): Text {
    (if more.NoMembers? then [] else [COMMA]) + (if format then [NEWLINE] else [])
  }

  // ---- what can be printed and read back ---------------------------------------------------

  /** Bytes of a C string. */
  predicate CString(s: Text) { forall c :: c in s ==> c != 0 }

  /** What C sees of a string: it ends at the first zero byte. */
  function Seen(t: Text): Text { if t == [] || t[0] == 0 then [] else [t[0]] + Seen(t[1..]) }

  /** The first zero, or the end, is where C stops. */
  lemma {:induction false} SeenPrefix(t: Text, n: nat)
    requires n <= |t| && (forall i :: 0 <= i < n ==> t[i] != 0) && (n < |t| ==> t[n] == 0)
    ensures Seen(t) == t[..n]
  {
    if n > 0 {
      assert forall i :: 0 <= i < |t| - 1 ==> t[1..][i] == t[i + 1];
      SeenPrefix(t[1..], n - 1);
      assert t[..n] == [t[0]] + t[1..][..n - 1];
    }
  }

  lemma SeenWhole(t: Text)
    requires CString(t)
    ensures Seen(t) == t
  {
    assert forall i :: 0 <= i < |t| ==> t[i] in t;
    SeenPrefix(t, |t|);
    assert t[..|t|] == t;
  }

  predicate Digit(c: byte) { 48 <= c <= 57 }

  /** Characters `parse_number` copies: digits, sign, exponent and point. */
  predicate NumChar(c: byte) { Digit(c) || c == 43 || c == 45 || c == 101 || c == 69 || c == 46 }

  function Digits(s: Text, i: nat): (j: nat)
    requires i <= |s|
    ensures i <= j <= |s|
    decreases |s| - i
  {
    if i < |s| && Digit(s[i]) then Digits(s, i + 1) else i
  }

  /** Length of the decimal number at the start of s that strtod converts, 0 if there is
      none: sign, digits with an optional point, optional exponent. */
  function NumLength(s: Text): (n: nat)
    ensures n <= |s|
  {
    var i := if s != [] && (s[0] == 43 || s[0] == 45) then 1 else 0;
    var j := Digits(s, i);
    var k := if j < |s| && s[j] == 46 then Digits(s, j + 1) else j;
    if k == i || (k == i + 1 && j == i) then 0 else ExponentEnd(s, k)
  }

  function ExponentEnd(s: Text, k: nat): (n: nat)
    requires k <= |s|
    ensures k <= n <= |s|
  {
    if k < |s| && (s[k] == 101 || s[k] == 69) then
      var e := if k + 1 < |s| && (s[k + 1] == 43 || s[k + 1] == 45) then k + 2 else k + 1;
      var d := Digits(s, e);
      if d == e then k else d
    else k
  }

  /** Numbers as the printer writes them: `%1.15g` or `%1.17g` of a finite double. */
  predicate NumText(t: Text) {
    && 0 < |t| <= 25 && (t[0] == 45 || Digit(t[0])) && (forall c :: c in t ==> NumChar(c)) && NumLength(t) == |t|
  }

  /** C strings and printed numbers throughout. */
  predicate Printable(v: Json)
    decreases v
  {
    match v
    case Num(text) => NumText(text)
    case Str(bytes) => CString(bytes)
    case Arr(items) => PrintableItems(items)
    case Obj(members) => PrintableMembers(members)
    case _ => true
  }

  predicate PrintableItems(items: Items)
    decreases items
  {
    match items
    case NoItems => true
    case Item(v, rest) => Printable(v) && PrintableItems(rest)
  }

  predicate PrintableMembers(members: Members)
    decreases members
  {
    match members
    case NoMembers => true
    case Member(key, v, more) => CString(key) && Printable(v) && PrintableMembers(more)
  }

  function Max(a: nat, b: nat): nat { if a < b then b else a }

  /** Nesting depth of arrays and objects. */
  function Depth(v: Json): nat
    decreases v
  {
    match v
    case Arr(items) => 1 + DepthItems(items)
    case Obj(members) => 1 + DepthMembers(members)
    case _ => 0
  }

  function DepthItems(items: Items): nat
    decreases items
  {
    match items
    case NoItems => 0
    case Item(v, rest) => Max(Depth(v), DepthItems(rest))
  }

  function DepthMembers(members: Members): nat
    decreases members
  {
    match members
    case NoMembers => 0
    case Member(_, v, more) => Max(Depth(v), DepthMembers(more))
  }

  // ---- printed text is a C string ------------------------------------------------------------

  lemma CJoin(a: Text, b: Text)
    requires CString(a) && CString(b)
    ensures CString(a + b)
  {
  }

  lemma {:induction false} EscapeIsC(s: Text)
    requires CString(s)
    ensures CString(EscapeAll(s))
  {
    if s != [] {
      assert s[0] in s && forall c :: c in s[1..] ==> c in s;
      EscapeIsC(s[1..]);
      CJoin(Escape(s[0]), EscapeAll(s[1..]));
    }
  }

  lemma QuoteIsC(s: Text)
    requires CString(s)
    ensures CString(Quote(s))
  {
    EscapeIsC(s);
  }

  lemma {:induction false} PrintIsC(v: Json, format: bool, depth: nat)
    requires Printable(v)
    ensures CString(Print(v, format, depth))
    decreases v
  {
    match v
    case Num(text) => assert forall c :: c in text ==> NumChar(c);
    case Str(bytes) => QuoteIsC(bytes);
    case Arr(items) => PrintItemsIsC(items, format, depth + 1);
    case Obj(members) => PrintMembersIsC(members, format, depth + 1);
    case _ =>
  }

  lemma {:induction false} PrintItemsIsC(items: Items, format: bool, depth: nat)
    requires PrintableItems(items)
    ensures CString(PrintItems(items, format, depth))
    decreases items
  {
    match items
    case NoItems =>
    case Item(v, rest) =>
      PrintIsC(v, format, depth);
      PrintItemsIsC(rest, format, depth);
  }

  lemma {:induction false} PrintMembersIsC(members: Members, format: bool, depth: nat)
    requires PrintableMembers(members)
    ensures CString(PrintMembers(members, format, depth))
    decreases members
  {
    match members
    case NoMembers =>
    case Member(key, v, more) =>
      QuoteIsC(key);
      PrintIsC(v, format, depth);
      PrintMembersIsC(more, format, depth);
  }
}
