/** What a JSON text is: the grammar of RFC 8259 as a relation between characters and
    trees, with the liberties that cJSON takes. White space is any control character, a
    string may contain control characters, and numbers are what strtod takes. */
module JsonGrammar {
  import opened Options
  import opened Bytes
  import opened JsonText

  // ---- characters ---------------------------------------------------------------------------

  /** The characters of s from p up to q are word. */
  predicate IsWord(s: Text, p: nat, q: nat, word: string) {
    p + |word| == q <= |s| && forall i :: 0 <= i < |word| ==> s[p + i] == word[i] as int
  }

  /** Character p is c. */
  predicate Is(s: Text, p: nat, c: char) { p < |s| && s[p] == c as int }

  predicate Ws(s: Text, p: nat, q: nat) { p <= q <= |s| && forall i :: p <= i < q ==> 0 < s[i] <= 32 }

  const LOWER := "0123456789abcdef"
  const UPPER := "0123456789ABCDEF"

  /** c is a hexadecimal digit worth d, in either case. */
  predicate IsHex(c: byte, d: nat) { d < 16 && (c == LOWER[d] as int || c == UPPER[d] as int) }

  ghost predicate HexChar(c: byte) { exists d: nat :: IsHex(c, d) }

  /** Four hexadecimal digits. */
  ghost predicate HexDigits(s: Text, p: nat) {
    p + 4 <= |s| && HexChar(s[p]) && HexChar(s[p + 1]) && HexChar(s[p + 2]) && HexChar(s[p + 3])
  }

  /** The four hexadecimal digits of u. */
  predicate FourHex(s: Text, p: nat, u: nat) {
    && p + 4 <= |s| && u < 0x10000
    && IsHex(s[p], u / 4096) && IsHex(s[p + 1], u / 256 % 16) && IsHex(s[p + 2], u / 16 % 16) && IsHex(s[p + 3], u % 16)
  }

  /** `\u` and the digits of u. */
  predicate Spelled(s: Text, i: nat, u: nat) { Is(s, i, '\\') && Is(s, i + 1, 'u') && FourHex(s, i + 2, u) }

  // ---- Unicode ------------------------------------------------------------------------------

  /** Unicode scalar values: code points that are not surrogates. */
  predicate Scalar(c: nat) { c < 0xD800 || 0xE000 <= c < 0x110000 }

  predicate Tail(b: byte) { 0x80 <= b <= 0xBF }

  /** The code point of a UTF-8 sequence in shortest form, section 4 of RFC 3629. */
  function Utf8Code(t: Text): Option<nat> {
    if |t| == 1 && t[0] < 0x80 then Some(t[0])
    else if |t| == 2 && 0xC2 <= t[0] <= 0xDF && Tail(t[1]) then Some(Weigh(t[0] - 0xC0, 0x40) + Bits(t[1]))
    else if |t| == 3 && 0xE0 <= t[0] <= 0xEF && Tail(t[1]) && Tail(t[2])
      && (t[0] == 0xE0 ==> t[1] >= 0xA0) && (t[0] == 0xED ==> t[1] <= 0x9F) then
      Some(Weigh(t[0] - 0xE0, 0x1000) + Weigh(Bits(t[1]), 0x40) + Bits(t[2]))
    else if |t| == 4 && 0xF0 <= t[0] <= 0xF4 && Tail(t[1]) && Tail(t[2]) && Tail(t[3])
      && (t[0] == 0xF0 ==> t[1] >= 0x90) && (t[0] == 0xF4 ==> t[1] <= 0x8F) then
      Some(Weigh(t[0] - 0xF0, 0x40000) + Weigh(Bits(t[1]), 0x1000) + Weigh(Bits(t[2]), 0x40) + Bits(t[3]))
    else None
  }

  /** The six bits a trailing byte carries. */
  function Bits(b: byte): nat
    requires Tail(b)
  {
    b - 0x80
  }

  function Weigh(bits: nat, weight: nat): nat { bits * weight }

  /** UTF-16, section 2.1 of RFC 2781. */
  function Units(c: nat): (u: seq<nat>)
    requires Scalar(c)
  {
    if c < 0x10000 then [c] else [0xD800 + (c - 0x10000) / 0x400, 0xDC00 + (c - 0x10000) % 0x400]
  }

  /** A scalar value written as one or two `\u` literals. */
  predicate Literally(s: Text, i: nat, c: nat) {
    Scalar(c) && if c < 0x10000 then Spelled(s, i, c) else Spelled(s, i, Units(c)[0]) && Spelled(s, i + 6, Units(c)[1])
  }

  function Width(c: nat): nat { if c < 0x10000 then 6 else 12 }

  // ---- strings ------------------------------------------------------------------------------

  const LETTERS := "\"\\/bfnrt"
  const MEANT: Text := [34, 92, 47, 8, 12, 10, 13, 9]

  /** The letter c behind a backslash stands for b. */
  ghost predicate Stands(c: byte, b: byte) { exists k: nat :: k < 8 && c == LETTERS[k] as int && b == MEANT[k] }

  /** The characters from p up to q stand for the bytes b. */
  ghost predicate IsChars(s: Text, p: nat, q: nat, b: Text)
    decreases q - p
  {
    p <= q <= |s| &&
    if p == q then b == []
    else if Is(s, p, '\\') then
      if Is(s, p + 1, 'u') then exists c: nat, n: nat :: CodeAt(s, p, q, b, c, n)
      else p + 2 <= q && b != [] && Stands(s[p + 1], b[0]) && IsChars(s, p + 2, q, b[1..])
    else !Is(s, p, '"') && b != [] && b[0] == s[p] && IsChars(s, p + 1, q, b[1..])
  }

  /** A literal of c at p, and the n bytes of its UTF-8 in front of b. */
  ghost predicate CodeAt(s: Text, p: nat, q: nat, b: Text, c: nat, n: nat)
    decreases q - p, 0
  {
    && Literally(s, p, c) && p + Width(c) <= q
    && n <= |b| && Utf8Code(b[..n]) == Some(c) && IsChars(s, p + Width(c), q, b[n..])
  }

  ghost predicate IsString(s: Text, p: nat, q: nat, b: Text) {
    p + 2 <= q <= |s| && Is(s, p, '"') && IsChars(s, p + 1, q - 1, b) && Is(s, q - 1, '"')
  }

  // ---- numbers ------------------------------------------------------------------------------

  predicate AllDigits(s: Text, p: nat, q: nat) {
    p <= q <= |s| && forall i :: p <= i < q ==> '0' as int <= s[i] <= '9' as int
  }

  /** Sign up to i, digits up to j, point and digits up to k, exponent. */
  predicate NumberParts(s: Text, p: nat, q: nat, i: nat, j: nat, k: nat) {
    && p <= i <= j <= k <= q <= |s| && p < q
    && (i == p || (i == p + 1 && Is(s, p, '-')))
    && AllDigits(s, i, j)
    && (k == j || (Is(s, j, '.') && AllDigits(s, j + 1, k)))
    && (i < j || (i > p && j + 1 < k))
    && (k == q || IsExponent(s, k, q))
  }

  predicate IsExponent(s: Text, k: nat, q: nat) {
    && (Is(s, k, 'e') || Is(s, k, 'E')) && k < q
    && var m := if Is(s, k + 1, '+') || Is(s, k + 1, '-') then k + 2 else k + 1;
    m < q && AllDigits(s, m, q)
  }

  ghost predicate IsNumber(s: Text, p: nat, q: nat) { q <= p + 63 && exists i: nat, j: nat, k: nat :: NumberParts(s, p, q, i, j, k) }

  // ---- values -------------------------------------------------------------------------------

  /** The characters from p up to q are a JSON text of v. */
  ghost predicate IsValue(s: Text, p: nat, q: nat, v: Json)
    decreases v, 0
  {
    p < q <= |s| &&
    match v
    case Null => IsWord(s, p, q, "null")
    case False => IsWord(s, p, q, "false")
    case True => IsWord(s, p, q, "true")
    case Num(t) => IsNumber(s, p, q) && t == s[p..q]
    case Str(b) => IsString(s, p, q, b)
    case Arr(items) =>
      p + 2 <= q && Is(s, p, '[') && Is(s, q - 1, ']') &&
      if items.NoItems? then Ws(s, p + 1, q - 1) else IsItems(s, p + 1, q - 1, items)
    case Obj(members) =>
      p + 2 <= q && Is(s, p, '{') && Is(s, q - 1, '}') &&
      if members.NoMembers? then Ws(s, p + 1, q - 1) else IsMembers(s, p + 1, q - 1, members)
  }

  /** Elements with commas between them. */
  ghost predicate IsItems(s: Text, p: nat, q: nat, items: Items)
    decreases items, 1
  {
    items.Item? && exists a: nat, b: nat, c: nat :: ItemLies(s, p, q, items, a, b, c)
  }

  /** The first element lies from a to b, and white space up to c. */
  ghost predicate ItemLies(s: Text, p: nat, q: nat, items: Items, a: nat, b: nat, c: nat)
    requires items.Item?
    decreases items, 0
  {
    && Ws(s, p, a) && IsValue(s, a, b, items.value) && Ws(s, b, c)
    && if items.rest.NoItems? then c == q else c < q && Is(s, c, ',') && IsItems(s, c + 1, q, items.rest)
  }

  ghost predicate IsMembers(s: Text, p: nat, q: nat, members: Members)
    decreases members, 1
  {
    members.Member? && exists k: nat, a: nat, b: nat, c: nat, d: nat, e: nat :: MemberLies(s, p, q, members, k, a, b, c, d, e)
  }

  /** The first name lies from k to a, its colon at b, its value from c to d, and white
      space up to e. */
  ghost predicate MemberLies(s: Text, p: nat, q: nat, members: Members, k: nat, a: nat, b: nat, c: nat, d: nat, e: nat)
    requires members.Member?
    decreases members, 0
  {
    && Ws(s, p, k) && IsString(s, k, a, members.key) && Ws(s, a, b) && Is(s, b, ':')
    && Ws(s, b + 1, c) && IsValue(s, c, d, members.val) && Ws(s, d, e)
    && if members.more.NoMembers? then e == q else e < q && Is(s, e, ',') && IsMembers(s, e + 1, q, members.more)
  }

  /** A value with white space around it. */
  ghost predicate IsText(s: Text, p: nat, q: nat, v: Json) {
    exists a: nat, b: nat :: Ws(s, p, a) && IsValue(s, a, b, v) && Ws(s, b, q)
  }
}
