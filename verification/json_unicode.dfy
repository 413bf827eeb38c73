/** Escaped code points become their UTF-8, in the space reserved for them. */
module JsonUnicode {
  import opened Options
  import opened Bytes
  import opened JsonText
  import opened JsonParse
  import opened JsonGrammar

  // ---- UTF-8 ----------------------------------------------------------------------------

  /** Encoding is legal UTF-8 of exactly the scalar values, and decodes to what was encoded. */
  lemma Utf8IsUtf8(c: nat)
    requires Scalar(c)
    ensures Utf8Code(Utf8(c)) == Some(c)
  {
    if 0x800 <= c < 0x10000 {
      Sextets(c);
    } else if c >= 0x10000 {
      Sextets(c);
    }
  }

  lemma Sextets(c: nat)
    ensures c == c / 0x40 * 0x40 + c % 0x40
    ensures c / 0x40 == c / 0x1000 * 0x40 + c / 0x40 % 0x40
    ensures c / 0x1000 == c / 0x40000 * 0x40 + c / 0x1000 % 0x40
  {
  }

  /** There is one encoding of each value. */
  lemma Utf8Once(t: Text, c: nat)
    requires Utf8Code(t) == Some(c)
    ensures Scalar(c) && Utf8(c) == t
  {
    if |t| == 2 {
      assert c / 0x40 == t[0] - 0xC0 && c % 0x40 == t[1] - 0x80;
    } else if |t| == 3 {
      ThreeBytes(t[0] - 0xE0, t[1] - 0x80, t[2] - 0x80);
    } else if |t| == 4 {
      FourBytes(t[0] - 0xF0, t[1] - 0x80, t[2] - 0x80, t[3] - 0x80);
    }
  }

  lemma ThreeBytes(a: nat, b: nat, c: nat)
    requires b < 0x40 && c < 0x40
    ensures var x := a * 0x1000 + b * 0x40 + c; x / 0x1000 == a && x / 0x40 % 0x40 == b && x % 0x40 == c
  {
    var x := a * 0x1000 + b * 0x40 + c;
    assert x / 0x40 == a * 0x40 + b;
  }

  lemma FourBytes(a: nat, b: nat, c: nat, d: nat)
    requires b < 0x40 && c < 0x40 && d < 0x40
    ensures var x := a * 0x40000 + b * 0x1000 + c * 0x40 + d; x / 0x40000 == a && x / 0x1000 % 0x40 == b && x / 0x40 % 0x40 == c && x % 0x40 == d
  {
    var x := a * 0x40000 + b * 0x1000 + c * 0x40 + d;
    assert x / 0x40 == a * 0x1000 + b * 0x40 + c && x / 0x1000 == a * 0x40 + b;
  }

  // ---- literals -------------------------------------------------------------------------

  /** The parser's digits are those of the grammar. */
  lemma HexIs(c: byte, d: nat)
    ensures HexValue(c) == Some(d) <==> IsHex(c, d)
  {
  }

  /** Four hexadecimal digits, in any mix of cases, read as the number they spell. */
  lemma HexReads(s: Text, p: nat, u: nat)
    requires FourHex(s, p, u)
    ensures Hex4(s, p) == u
  {
    hide HexValue, IsHex;
    HexIs(s[p], u / 4096);
    HexIs(s[p + 1], u / 256 % 16);
    HexIs(s[p + 2], u / 16 % 16);
    HexIs(s[p + 3], u % 16);
    Nibbled(u);
  }

  lemma Nibbled(u: nat)
    ensures ((u / 4096 * 16 + u / 256 % 16) * 16 + u / 16 % 16) * 16 + u % 16 == u
  {
    Quarter(u);
    Quarter(u / 16);
    Quarter(u / 256);
  }

  lemma Quarter(u: nat)
    ensures u / 16 * 16 + u % 16 == u && u / 16 / 16 == u / 256 && u / 256 / 16 == u / 4096
  {
  }

  lemma HexCharIs(c: byte)
    ensures HexChar(c) <==> HexValue(c).Some?
    ensures HexChar(c) ==> HexValue(c).value < 16 && IsHex(c, HexValue(c).value)
  {
    if HexValue(c).Some? {
      HexIs(c, HexValue(c).value);
    } else {
      forall d ensures !IsHex(c, d) { HexIs(c, d); }
    }
  }

  /** Any four of them spell a number. */
  lemma HexSpells(s: Text, i: nat)
    requires i + 6 <= |s| && Is(s, i, '\\') && Is(s, i + 1, 'u') && HexDigits(s, i + 2)
    ensures Spelled(s, i, Hex4(s, i + 2))
  {
    hide IsHex, HexChar, HexValue;
    HexCharIs(s[i + 2]);
    HexCharIs(s[i + 3]);
    HexCharIs(s[i + 4]);
    HexCharIs(s[i + 5]);
    Nibbles(HexValue(s[i + 2]).value, HexValue(s[i + 3]).value, HexValue(s[i + 4]).value, HexValue(s[i + 5]).value);
  }

  lemma Nibbles(a: nat, b: nat, c: nat, d: nat)
    requires a < 16 && b < 16 && c < 16 && d < 16
    ensures var u := ((a * 16 + b) * 16 + c) * 16 + d; u < 0x10000 && u / 4096 == a && u / 256 % 16 == b && u / 16 % 16 == c && u % 16 == d
  {
    var u := ((a * 16 + b) * 16 + c) * 16 + d;
    assert u / 16 == (a * 16 + b) * 16 + c && u % 16 == d;
    assert u / 256 == a * 16 + b && u / 4096 == a;
  }

  /** Literals of any scalar value, a surrogate pair where one is needed, are read as it. */
  lemma LiteralIs(s: Text, i: nat, e: nat, c: nat)
    requires Literally(s, i, c) && i + Width(c) <= e < |s|
    ensures Literal(s, i, e) == Done(c, Width(c))
  {
    hide Hex4, IsHex;
    if c < 0x10000 {
      HexReads(s, i + 2, c);
    } else {
      PairBack(c);
      HexReads(s, i + 2, Units(c)[0]);
      HexReads(s, i + 8, Units(c)[1]);
    }
  }

  lemma PairBack(c: nat)
    requires 0x10000 <= c < 0x110000
    ensures var hi, lo := Units(c)[0], Units(c)[1]; High(hi) && Low(lo) && Pair(hi, lo) == c
  {
    var x := c - 0x10000;
    assert x == x / 0x400 * 0x400 + x % 0x400;
  }

  /** In a string they become the UTF-8 of the value. */
  lemma LiteralBecomesUtf8(s: Text, i: nat, e: nat, c: nat)
    requires Literally(s, i, c) && i + Width(c) <= e < |s|
    ensures Unescape(s, i, e) == Prepend(Utf8(c), Unescape(s, i + Width(c), e)) && Utf8Code(Utf8(c)) == Some(c)
  {
    LiteralIs(s, i, e, c);
    Utf8IsUtf8(c);
  }

  /** Nothing but a scalar value ever comes out of a literal: lone surrogates fail. */
  lemma LiteralIsScalar(s: Text, i: nat, e: nat)
    requires i < e < |s|
    ensures Literal(s, i, e).Done? ==> Scalar(Literal(s, i, e).value) && 1 <= |Utf8(Literal(s, i, e).value)| <= 4
    ensures forall u :: i + 6 <= e && Spelled(s, i, u) && 0xDC00 <= u <= 0xDFFF ==> Literal(s, i, e).Fail?
    ensures forall u :: i + 6 <= e && Spelled(s, i, u) && 0xD800 <= u <= 0xDBFF && !SecondHalf(s, i + 6, e) ==> Literal(s, i, e).Fail?
  {
    hide Hex4, IsHex;
    forall u | i + 6 <= e && Spelled(s, i, u) ensures Hex4(s, i + 2) == u { HexReads(s, i + 2, u); }
    if i + 12 <= e && s[i + 6] == BACKSLASH && s[i + 7] == CHAR_U && Low(Hex4(s, i + 8)) {
      if HexDigits(s, i + 8) { HexSpells(s, i + 6); } else { BadHex(s, i + 8); }
    }
  }

  /** A literal of the second half of a surrogate pair. */
  ghost predicate SecondHalf(s: Text, i: nat, e: nat) {
    i + 6 <= e && exists w :: Spelled(s, i, w) && 0xDC00 <= w <= 0xDFFF
  }

  lemma BadHex(s: Text, p: nat)
    requires p + 4 <= |s| && !HexDigits(s, p)
    ensures Hex4(s, p) == 0
  {
    hide HexChar, HexValue;
    HexCharIs(s[p]);
    HexCharIs(s[p + 1]);
    HexCharIs(s[p + 2]);
    HexCharIs(s[p + 3]);
  }

  /** Against section 7 of RFC 8259, characters that are no hexadecimal digits are not an
      error: they read as the code point 0, like four zeros, and a C reader sees the string
      end there. */
  lemma BadHexReadsAsZero(s: Text, i: nat, e: nat)
    requires i + 6 <= e < |s| && !HexDigits(s, i + 2)
    ensures Literal(s, i, e) == Done(0, 6)
  {
    BadHex(s, i + 2);
  }

  // ---- the reserved space ---------------------------------------------------------------

  /** Escapes that `parse_string` counts on its way to the closing quote. */
  function Skipped(s: Text, p: nat, e: nat): nat
    requires p <= |s|
    decreases |s| - p
  {
    if p >= e || p >= |s| then 0
    else if s[p] == BACKSLASH && p + 1 < |s| then 1 + Skipped(s, p + 2, e)
    else Skipped(s, p + 1, e)
  }

  /** Bytes reserved for the characters from p up to e: one for each escape and one for
      each other character. */
  function Room(s: Text, p: nat, e: nat): nat
    requires p <= |s| && e <= |s|
    decreases |s| - p
  {
    if p >= e then 0
    else if s[p] == BACKSLASH && p + 1 < |s| then 1 + Room(s, p + 2, e)
    else 1 + Room(s, p + 1, e)
  }

  /** The scan stops at e. */
  lemma {:induction false} RoomIs(s: Text, p: nat, e: nat)
    requires p <= |s| && StringEnd(s, p) == Some(e)
    ensures Room(s, p, e) == e - p - Skipped(s, p, e)
    decreases |s| - p
  {
    if p < e {
      if s[p] == BACKSLASH { RoomIs(s, p + 2, e); } else { RoomIs(s, p + 1, e); }
    }
  }

  /** Starting one character later never needs more. */
  lemma {:induction false} RoomShrinks(s: Text, p: nat, e: nat)
    requires p < |s| && e <= |s|
    ensures Room(s, p + 1, e) <= Room(s, p, e) <= 1 + Room(s, p + 1, e)
    decreases |s| - p
  {
    if p < e && s[p] == BACKSLASH && p + 1 < |s| { RoomShrinks(s, p + 1, e); }
  }

  lemma {:induction false} RoomFalls(s: Text, p: nat, q: nat, e: nat)
    requires p <= q <= |s| && e <= |s|
    ensures Room(s, q, e) <= Room(s, p, e)
    decreases q - p
  {
    if p < q {
      RoomShrinks(s, p, e);
      RoomFalls(s, p + 1, q, e);
    }
  }

  /** Each character that is no backslash takes a byte. */
  lemma {:induction false} RoomPlain(s: Text, p: nat, n: nat, e: nat)
    requires p + n <= e <= |s| && forall k :: p <= k < p + n ==> s[k] != BACKSLASH
    ensures Room(s, p, e) == n + Room(s, p + n, e)
    decreases n
  {
    if n > 0 { RoomPlain(s, p + 1, n - 1, e); }
  }

  lemma HexIsPlain(s: Text, p: nat)
    requires p + 4 <= |s| && Hex4(s, p) != 0
    ensures forall k :: p <= k < p + 4 ==> s[k] != BACKSLASH
  {
  }

  /** An escape of any kind fits where it stands, in step with the scan or not. */
  lemma LiteralFits(s: Text, i: nat, e: nat)
    requires i < e < |s| && s[i] == BACKSLASH && s[i + 1] == CHAR_U && Literal(s, i, e).Done?
    ensures var r := Literal(s, i, e); |Utf8(r.value)| + Room(s, i + r.end, e) <= Room(s, i, e)
  {
    var r := Literal(s, i, e);
    RoomShrinks(s, i, e);
    assert Room(s, i, e) == 1 + Room(s, i + 2, e);
    if r.value == 0 {
      RoomFalls(s, i + 2, i + 6, e);
    } else if r.end == 6 {
      HexIsPlain(s, i + 2);
      RoomPlain(s, i + 2, 4, e);
    } else {
      HexIsPlain(s, i + 2);
      RoomPlain(s, i + 2, 4, e);
      HexIsPlain(s, i + 8);
      RoomPlain(s, i + 8, 4, e);
      assert Room(s, i + 6, e) == 1 + Room(s, i + 8, e);
    }
  }

  /** The output never exceeds the bytes reserved, not even when `\\u` with bad digits
      swallows the start of another escape. */
  lemma {:induction false} UnescapeFits(s: Text, i: nat, e: nat)
    requires i <= |s| && e < |s| && s[e] == QUOTE
    ensures Unescape(s, i, e).Some? ==> |Unescape(s, i, e).value| <= Room(s, i, e)
    decreases |s| - i
  {
    if i < e {
      RoomShrinks(s, i, e);
      if s[i] != BACKSLASH {
        UnescapeFits(s, i + 1, e);
      } else if s[i + 1] == CHAR_U {
        if Literal(s, i, e).Done? {
          LiteralFits(s, i, e);
          UnescapeFits(s, i + Literal(s, i, e).end, e);
        }
      } else {
        UnescapeFits(s, i + 2, e);
      }
    }
  }

  /** `allocation_length` in `parse_string` is enough for the string's bytes. */
  lemma StringFits(s: Text, p: nat, e: nat)
    requires p < |s| && s[p] == QUOTE && StringEnd(s, p + 1) == Some(e)
    ensures var reserved := e - p - Skipped(s, p + 1, e);
      Unescape(s, p + 1, e).Some? ==> |Unescape(s, p + 1, e).value| < reserved
  {
    hide Unescape, Room, Skipped, StringEnd;
    RoomIs(s, p + 1, e);
    UnescapeFits(s, p + 1, e);
  }
}
