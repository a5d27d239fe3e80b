/** Character classes of the scanner (lex_helper.go).

    A rune is an `int` so that the scanner's end-of-input sentinel, -1, is a
    rune like any other; input characters are code points. */
module Runes {

  /** The `eof` rune `next` returns at the end of the input. */
  const Eof: int := -1

  const Tab: int := 9
  const Lf: int := 10
  const Cr: int := 13
  const Space: int := 32
  const DQuote: int := 34
  const Comma: int := 44
  const Hyphen: int := 45
  const Colon: int := 58
  const SemiColon: int := 59
  const EqualSign: int := 61

  function RuneOf(c: char): int
  {
    c as int
  }

  /** `unicode.IsLetter`, restricted to ASCII letters. */
  predicate IsLetter(r: int)
  {
    ('A' as int <= r <= 'Z' as int) || ('a' as int <= r <= 'z' as int)
  }

  /** `unicode.IsDigit`, restricted to ASCII digits. */
  predicate IsDigit(r: int)
  {
    '0' as int <= r <= '9' as int
  }

  /** `unicode.IsControl`: the C0 controls, DEL and the C1 controls. A negative
      rune such as `Eof` is not a control character. */
  predicate IsControl(r: int)
  {
    (0 <= r <= 0x1F) || (0x7F <= r <= 0x9F)
  }

  /** `utf8.ValidRune`: a Unicode scalar value. */
  predicate ValidRune(r: int)
  {
    (0 <= r < 0xD800) || (0xDFFF < r <= 0x10FFFF)
  }

  /** The number of bytes the UTF-8 encoding of a code point takes. */
  function Utf8Width(r: int): (w: nat)
    ensures 1 <= w <= 4
    ensures w == 1 <==> r < 0x80
  {
    if r < 0x80 then 1 else if r < 0x800 then 2 else if r < 0x10000 then 3 else 4
  }

  /** The length in bytes of the UTF-8 encoding of a text: Go's strings are
      byte sequences, and `len` and slicing count bytes. */
  function Utf8Length(s: string): (n: nat)
    ensures n >= |s|
  {
    if |s| == 0 then 0 else Utf8Width(RuneOf(s[0])) + Utf8Length(s[1..])
  }

  /** A text whose characters all take `w` bytes takes `w` bytes per character. */
  lemma {:induction false} Utf8Uniform(s: string, w: nat)
    requires forall i :: 0 <= i < |s| ==> Utf8Width(RuneOf(s[i])) == w
    ensures Utf8Length(s) == w * |s|
    decreases |s|
  {
    if |s| > 0 {
      assert forall i :: 0 <= i < |s[1..]| ==> s[1..][i] == s[i + 1];
      Utf8Uniform(s[1..], w);
    }
  }

  /** Every character is ASCII, one byte each. */
  predicate Ascii(s: string)
  {
    forall i :: 0 <= i < |s| ==> RuneOf(s[i]) < 0x80
  }

  /** A text has as many bytes as characters exactly when it is ASCII. */
  lemma {:induction false} AsciiLength(s: string)
    ensures Utf8Length(s) == |s| <==> Ascii(s)
    decreases |s|
  {
    if |s| > 0 {
      AsciiLength(s[1..]);
      assert Ascii(s) <==> RuneOf(s[0]) < 0x80 && Ascii(s[1..]) by {
        if RuneOf(s[0]) < 0x80 && Ascii(s[1..]) {
          forall i | 0 < i < |s| ensures RuneOf(s[i]) < 0x80 { assert s[i] == s[1..][i - 1]; }
        }
      }
    }
  }

  /** `isName`: a letter, a digit or '-'. */
  function IsName(r: int): (b: bool)
    ensures b ==> r != Eof && !IsControl(r) && ValidRune(r)
    ensures b ==> r !in {DQuote, SemiColon, Colon, Comma, EqualSign, Cr, Lf}
  {
    IsLetter(r) || IsDigit(r) || r == Hyphen
  }

  /** `isQSafeChar`: anything but a control character and '"'. */
  function IsQSafeChar(r: int): (b: bool)
    ensures !b <==> IsControl(r) || r == DQuote
    ensures r == Eof ==> b
    ensures IsName(r) ==> b
  {
    !IsControl(r) && r != DQuote
  }

  /** `isSafeChar`: a quoted-safe character other than ';', ':' and ','. */
  function IsSafeChar(r: int): (b: bool)
    ensures b <==> IsQSafeChar(r) && r != SemiColon && r != Colon && r != Comma
    ensures r == Eof ==> b
    ensures IsName(r) ==> b
  {
    !IsControl(r) && r != DQuote && r != SemiColon && r != Colon && r != Comma
  }

  /** `isValueChar`: tab, or a valid rune that is not a control character. */
  function IsValueChar(r: int): (b: bool)
    ensures b ==> r != Eof
    ensures r == Tab ==> b
    ensures r == Cr || r == Lf ==> !b
    ensures ValidRune(r) && !IsControl(r) ==> b
    ensures IsControl(r) && r != Tab ==> !b
    ensures IsName(r) ==> b
  {
    r == Tab || (!IsControl(r) && ValidRune(r))
  }

  /** The four greedy loops of the scanner, named by the class they absorb. */
  datatype Class = NameChars | SafeChars | QSafeChars | ValueChars

  predicate InClass(cls: Class, r: int)
  {
    match cls
    case NameChars => IsName(r)
    case SafeChars => IsSafeChar(r)
    case QSafeChars => IsQSafeChar(r)
    case ValueChars => IsValueChar(r)
  }

  /** Every code point of the input is a valid rune; `Eof` is not. */
  lemma CharsAreValidRunes(c: char)
    ensures ValidRune(RuneOf(c)) && RuneOf(c) != Eof
  {
  }
}
