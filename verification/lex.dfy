/** The scanner (lex.go): six state functions over a cursor into the input.

    In lex.go the state functions run in a goroutine and hand tokens to
    the parser over an unbuffered channel. Here one call of a state function
    is `Step`, which returns the tokens it emits and the next scanner state;
    `Run` drives the states to the end, and `Next` hands the tokens out one at
    a time the way the channel does. */
module Lex {
  import opened Util
  import opened Runes
  import opened Items

  /** The state functions lexName, lexContentLine, lexParamName,
      lexParamValue, lexValue and lexNewLine. */
  datatype State = LexName | LexContentLine | LexParamName | LexParamValue | LexValue | LexNewLine

  /** The scanner: the input, where the pending token starts, the read
      position, and the state function to enter next. */
  datatype Lexer = Lexer(input: string, start: nat, pos: nat, state: State)

  predicate Valid(l: Lexer)
  {
    l.start <= l.pos <= |l.input|
  }

  /** What one state function does: emit tokens and name the next state,
      emit tokens and stop (a nil state), loop forever, or crash on an
      out-of-range slice. */
  datatype Outcome =
    | Continue(items: seq<Item>, next: Lexer)
    | Halt(items: seq<Item>)
    | Diverge
    | Crash(items: seq<Item>)

  /** The diagnostics of the three `errorf` calls; their exact wording is not modelled. */
  const UnrecognizedCharacter: string := "unrecognized character in action"
  const MissingCrlf: string := "unable to find end of line \"CRLF\""
  const MissingEqual: string := "missing \"=\" sign after param name"
  const MissingClosingQuote: string := "Missing \" for closing value"

  /** The rune `next` returns at index i: the character there, or `Eof`. */
  function RuneAt(input: string, i: nat): (r: int)
    ensures i < |input| ==> r == RuneOf(input[i]) && r != Eof
    ensures i >= |input| ==> r == Eof
  {
    if i < |input| then RuneOf(input[i]) else Eof
  }

  /** The end of the longest run of characters of a class starting at i. */
  function Span(input: string, i: nat, cls: Class): (j: nat)
    requires i <= |input|
    ensures i <= j <= |input|
    ensures forall k :: i <= k < j ==> InClass(cls, RuneOf(input[k]))
    ensures j < |input| ==> !InClass(cls, RuneOf(input[j]))
    decreases |input| - i
  {
    if i < |input| && InClass(cls, RuneOf(input[i])) then Span(input, i + 1, cls) else i
  }

  /** A greedy loop `for { switch r := l.next(); case class(r): ... default:
      l.backup(); break }`. At the end of the input `next` keeps returning
      `Eof` without advancing, so a class that contains `Eof` never leaves
      the loop once the run reaches the end. */
  function Absorb(input: string, i: nat, cls: Class): (r: Option<nat>)
    requires i <= |input|
    ensures r.None? <==> InClass(cls, Eof) && forall k :: i <= k < |input| ==> InClass(cls, RuneOf(input[k]))
    ensures r.Some? ==> r.value == Span(input, i, cls)
  {
    var j := Span(input, i, cls);
    if j == |input| && InClass(cls, Eof) then None else Some(j)
  }

  /** The delimiter keywords in the order lexName tries them. */
  const Keywords: seq<(bool, Component)> := [
    (true, VCalendar), (false, VCalendar), (true, VEvent), (false, VEvent),
    (true, VAlarm), (false, VAlarm), (true, VTimezone), (false, VTimezone),
    (true, StandardTime), (false, StandardTime), (true, DaylightTime), (false, DaylightTime)]

  lemma KeywordsAreAll(b: bool, c: Component)
    ensures (b, c) in Keywords
  {
  }

  /** The first keyword of `ks` that the text starts with. */
  function MatchKeyword(s: string, ks: seq<(bool, Component)>): (r: Option<(bool, Component)>)
    ensures r.Some? ==> r.value in ks && HasPrefix(s, KeywordText(r.value.0, r.value.1))
    ensures r.None? ==> forall k :: k in ks ==> !HasPrefix(s, KeywordText(k.0, k.1))
  {
    if |ks| == 0 then None
    else if HasPrefix(s, KeywordText(ks[0].0, ks[0].1)) then Some(ks[0])
    else MatchKeyword(s, ks[1..])
  }

  /** The component a keyword prefix names, read off the first letters after "BEGIN:" or "END:". */
  function KeywordComponent(s: string, begin: bool): Component
    requires |s| >= 8
  {
    var k := if begin then 6 else 4;
    if s[k] == 'V' then
      (if s[k + 1] == 'C' then VCalendar else if s[k + 1] == 'E' then VEvent
       else if s[k + 1] == 'A' then VAlarm else VTimezone)
    else if s[k] == 'S' then StandardTime
    else DaylightTime
  }

  /** A text starts with at most one keyword: no keyword is a prefix of
      another, so the order in which lexName tries them does not matter. */
  lemma KeywordDetermined(s: string, b: bool, c: Component)
    requires HasPrefix(s, KeywordText(b, c))
    ensures |s| >= 8 && b == (s[0] == 'B') && c == KeywordComponent(s, b)
  {
    var kw := KeywordText(b, c);
    assert |kw| >= 8;
    HasPrefixIndex(s, kw, 0);
    var k := if b then 6 else 4;
    HasPrefixIndex(s, kw, k);
    HasPrefixIndex(s, kw, k + 1);
  }

  lemma KeywordUnique(s: string, b1: bool, c1: Component, b2: bool, c2: Component)
    requires HasPrefix(s, KeywordText(b1, c1)) && HasPrefix(s, KeywordText(b2, c2))
    ensures b1 == b2 && c1 == c2
  {
    KeywordDetermined(s, b1, c1);
    KeywordDetermined(s, b2, c2);
  }

  /** lexName's keyword test: the delimiter the remaining input starts with, if any. */
  function KeywordAt(input: string, i: nat): (r: Option<(bool, Component)>)
    requires i <= |input|
    ensures r.Some? <==> exists b, c :: HasPrefix(input[i..], KeywordText(b, c))
    ensures r.Some? ==> forall b, c :: HasPrefix(input[i..], KeywordText(b, c)) <==> (b, c) == r.value
  {
    var r := MatchKeyword(input[i..], Keywords);
    if r.None? then
      forall b, c ensures !HasPrefix(input[i..], KeywordText(b, c)) {
        KeywordsAreAll(b, c);
      }
      r
    else
      forall b, c | HasPrefix(input[i..], KeywordText(b, c)) ensures (b, c) == r.value {
        KeywordUnique(input[i..], b, c, r.value.0, r.value.1);
      }
      r
  }

  function Rank(s: State): nat
  {
    match s
    case LexNewLine => 0
    case LexContentLine => 1
    case LexValue => 2
    case LexParamValue => 2
    case LexParamName => 2
    case LexName => 3
  }

  /** Decreases with every state function call that does not stop the scanner. */
  function Measure(l: Lexer): nat
    requires Valid(l)
  {
    4 * (|l.input| - l.pos) + Rank(l.state)
  }

  /** Every token the scanner emits other than an error carries its own text:
      `val` is the input from `pos` on. */
  predicate Faithful(input: string, items: seq<Item>)
  {
    forall i :: 0 <= i < |items| && items[i].typ != ItemError ==>
      items[i].pos + |items[i].val| <= |input| && items[i].val == input[items[i].pos..items[i].pos + |items[i].val|]
  }

  lemma FaithfulAppend(input: string, xs: seq<Item>, ys: seq<Item>)
    requires Faithful(input, xs) && Faithful(input, ys)
    ensures Faithful(input, xs + ys)
  {
    forall i | 0 <= i < |xs + ys| && (xs + ys)[i].typ != ItemError
      ensures var it := (xs + ys)[i]; it.pos + |it.val| <= |input| && it.val == input[it.pos..it.pos + |it.val|]
    {
      if i >= |xs| {
        assert (xs + ys)[i] == ys[i - |xs|];
      }
    }
  }

  /** `emit`: the token from the pending start up to `upto`. */
  function Emit(l: Lexer, t: ItemType, upto: nat): (i: Item)
    requires l.start <= upto <= |l.input|
    ensures i.typ == t && i.pos == l.start && i.val == l.input[l.start..upto]
  {
    Item(t, l.start, l.input[l.start..upto])
  }

  lemma FaithfulEmit(l: Lexer, t: ItemType, upto: nat)
    requires l.start <= upto <= |l.input|
    ensures Faithful(l.input, [Emit(l, t, upto)])
  {
  }

  /** The scanner positioned at `p` with nothing pending. */
  function At(l: Lexer, p: nat, s: State): Lexer
  {
    Lexer(l.input, p, p, s)
  }

  /** lexName when the remaining input starts with a delimiter keyword: the
      delimiter token, then lexNewLine right after the keyword. */
  function LexDelimiter(l: Lexer, b: bool, c: Component): (r: Outcome)
    requires Valid(l) && l.state == LexName && HasPrefix(l.input[l.pos..], KeywordText(b, c))
    ensures r.Continue? && |r.items| == 1 && r.next.input == l.input
    ensures Valid(r.next) && Measure(r.next) < Measure(l) && Faithful(l.input, r.items)
    ensures r.items[0].typ == ItemDelim(b, c) && r.items[0].pos == l.start
    ensures r.next == At(l, l.pos + |KeywordText(b, c)|, LexNewLine)
    ensures l.start == l.pos ==> r.items[0].val == KeywordText(b, c)
  {
    var kw := KeywordText(b, c);
    assert |kw| >= 8;
    var p := l.pos + |kw|;
    assert l.input[l.pos..][..|kw|] == l.input[l.pos..p];
    Continue([Emit(l, ItemDelim(b, c), p)], At(l, p, LexNewLine))
  }

  /** lexName otherwise: the longest run of name characters, possibly empty,
      then lexContentLine. */
  function LexNameRun(l: Lexer): (r: Outcome)
    requires Valid(l) && l.state == LexName
    ensures r.Continue? && |r.items| == 1 && r.next.input == l.input
    ensures Valid(r.next) && Measure(r.next) < Measure(l) && Faithful(l.input, r.items)
    ensures r.items[0].typ == ItemName && r.items[0].pos == l.start && r.next.state == LexContentLine
    ensures var j := r.next.pos;
              l.pos <= j <= |l.input| && r.next == At(l, j, LexContentLine) &&
              r.items[0].val == l.input[l.start..j] &&
              (forall k :: l.pos <= k < j ==> IsName(RuneOf(l.input[k]))) &&
              (j < |l.input| ==> !IsName(RuneOf(l.input[j])))
  {
    var j := Span(l.input, l.pos, NameChars);
    Continue([Emit(l, ItemName, j)], At(l, j, LexContentLine))
  }

  /** lexName: a delimiter keyword, or else the longest run of name characters. */
  function LexNameStep(l: Lexer): (r: Outcome)
    requires Valid(l) && l.state == LexName
    ensures r.Continue? && |r.items| == 1 && r.next.input == l.input
    ensures Valid(r.next) && Measure(r.next) < Measure(l) && Faithful(l.input, r.items)
  {
    match KeywordAt(l.input, l.pos)
    case Some((b, c)) => LexDelimiter(l, b, c)
    case None => LexNameRun(l)
  }

  /** lexContentLine: dispatch on the punctuation after a name or parameter. */
  function LexContentLineStep(l: Lexer): (r: Outcome)
    requires Valid(l) && l.state == LexContentLine
    ensures r.Continue? ==> Valid(r.next) && r.next.input == l.input && Measure(r.next) < Measure(l)
    ensures !r.Diverge? ==> Faithful(l.input, r.items)
    ensures var ch := RuneAt(l.input, l.pos);
      if ch == SemiColon then r == Continue([Emit(l, ItemSemiColon, l.pos + 1)], At(l, l.pos + 1, LexParamName))
      else if ch == Comma then r == Continue([Emit(l, ItemComma, l.pos + 1)], At(l, l.pos + 1, LexParamValue))
      else if ch == Colon then r == Continue([Emit(l, ItemColon, l.pos + 1)], At(l, l.pos + 1, LexValue))
      else r == Halt([Item(ItemError, l.start, UnrecognizedCharacter)])
  {
    var ch := RuneAt(l.input, l.pos);
    if ch == SemiColon then Continue([Emit(l, ItemSemiColon, l.pos + 1)], At(l, l.pos + 1, LexParamName))
    else if ch == Comma then Continue([Emit(l, ItemComma, l.pos + 1)], At(l, l.pos + 1, LexParamValue))
    else if ch == Colon then Continue([Emit(l, ItemColon, l.pos + 1)], At(l, l.pos + 1, LexValue))
    else Halt([Item(ItemError, l.start, UnrecognizedCharacter)])
  }

  /** The mandatory '=' after a parameter name that ends at j. */
  function ExpectEqual(l: Lexer, name: Item, j: nat): (r: Outcome)
    requires l.pos <= j <= |l.input| && Faithful(l.input, [name])
    ensures !r.Diverge? ==> Faithful(l.input, r.items)
    ensures if RuneAt(l.input, j) == EqualSign then
              r == Continue([name, Item(ItemEqual, j, "=")], At(l, j + 1, LexParamValue))
            else r == Halt([name, Item(ItemError, j, MissingEqual)])
  {
    if RuneAt(l.input, j) == EqualSign then
      var equal := Item(ItemEqual, j, "=");
      assert l.input[j..j + 1] == "=";
      assert Faithful(l.input, [equal]);
      FaithfulAppend(l.input, [name], [equal]);
      Continue([name, equal], At(l, j + 1, LexParamValue))
    else
      FaithfulAppend(l.input, [name], [Item(ItemError, j, MissingEqual)]);
      Halt([name, Item(ItemError, j, MissingEqual)])
  }

  /** lexParamName: the longest run of name characters, then a mandatory '='. */
  function LexParamNameStep(l: Lexer): (r: Outcome)
    requires Valid(l) && l.state == LexParamName
    ensures r.Continue? ==> Valid(r.next) && r.next.input == l.input && Measure(r.next) < Measure(l)
    ensures !r.Diverge? ==> Faithful(l.input, r.items)
    ensures (r.Continue? || r.Halt?) && |r.items| == 2 && r.items[0].typ == ItemParamName
    ensures var j := r.items[0].pos + |r.items[0].val|;
      l.pos <= j <= |l.input| && r.items[0].val == l.input[l.start..j] &&
      (forall k :: l.pos <= k < j ==> IsName(RuneOf(l.input[k]))) &&
      (j < |l.input| ==> !IsName(RuneOf(l.input[j]))) &&
      if RuneAt(l.input, j) == EqualSign then
        r == Continue([r.items[0], Item(ItemEqual, j, "=")], At(l, j + 1, LexParamValue))
      else r == Halt([r.items[0], Item(ItemError, j, MissingEqual)])
  {
    var j := Span(l.input, l.pos, NameChars);
    FaithfulEmit(l, ItemParamName, j);
    ExpectEqual(l, Emit(l, ItemParamName, j), j)
  }

  /** A parameter value's greedy loop runs forever when it reaches the end of the input. */
  predicate AbsorbsToEnd(l: Lexer)
    requires Valid(l)
  {
    if RuneAt(l.input, l.pos) == DQuote then
      forall k :: l.pos + 1 <= k < |l.input| ==> IsQSafeChar(RuneOf(l.input[k]))
    else
      forall k :: l.pos <= k < |l.input| ==> IsSafeChar(RuneOf(l.input[k]))
  }

  /** The end of a quoted value whose characters stop at j: the closing
      quote, or an error token after which scanning resumes past j. */
  function CloseQuote(l: Lexer, value: Item, j: nat): (r: Outcome)
    requires l.pos < j < |l.input| && Faithful(l.input, [value])
    ensures r.Continue? && Faithful(l.input, r.items)
    ensures if l.input[j] == '"' then r == Continue([value], At(l, j + 1, LexContentLine))
            else r == Continue([value, Item(ItemError, j, MissingClosingQuote)], Lexer(l.input, j, j + 1, LexContentLine))
  {
    if l.input[j] == '"' then Continue([value], At(l, j + 1, LexContentLine))
    else
      FaithfulAppend(l.input, [value], [Item(ItemError, j, MissingClosingQuote)]);
      Continue([value, Item(ItemError, j, MissingClosingQuote)], Lexer(l.input, j, j + 1, LexContentLine))
  }

  /** lexParamValue after an opening quote: the token excludes both quotes.
      A missing closing quote emits an error token and scanning goes on: the
      result of `errorf` is dropped. */
  function LexQuotedValue(l: Lexer): (r: Outcome)
    requires Valid(l) && l.state == LexParamValue && RuneAt(l.input, l.pos) == DQuote
    ensures r.Continue? ==> Valid(r.next) && r.next.input == l.input && Measure(r.next) < Measure(l)
    ensures !r.Diverge? ==> Faithful(l.input, r.items)
    ensures r.Diverge? <==> forall k :: l.pos + 1 <= k < |l.input| ==> IsQSafeChar(RuneOf(l.input[k]))
    ensures r.Continue? || r.Diverge?
    ensures r.Continue? ==>
              1 <= |r.items| <= 2 && r.items[0].typ == ItemParamValue && r.next.state == LexContentLine &&
              var j := l.pos + 1 + |r.items[0].val|;
              j < |l.input| && r.items[0] == Item(ItemParamValue, l.pos + 1, l.input[l.pos + 1..j]) &&
              (forall k :: l.pos + 1 <= k < j ==> IsQSafeChar(RuneOf(l.input[k]))) &&
              !IsQSafeChar(RuneOf(l.input[j])) &&
              if l.input[j] == '"' then r == Continue([r.items[0]], At(l, j + 1, LexContentLine))
              else r == Continue([r.items[0], Item(ItemError, j, MissingClosingQuote)], Lexer(l.input, j, j + 1, LexContentLine))
  {
    match Absorb(l.input, l.pos + 1, QSafeChars)
    case None => Diverge
    case Some(j) =>
      var value := Item(ItemParamValue, l.pos + 1, l.input[l.pos + 1..j]);
      assert Faithful(l.input, [value]);
      CloseQuote(l, value, j)
  }

  /** lexParamValue without a quote: the longest run of safe characters. */
  function LexUnquotedValue(l: Lexer): (r: Outcome)
    requires Valid(l) && l.state == LexParamValue && RuneAt(l.input, l.pos) != DQuote
    ensures r.Continue? ==> Valid(r.next) && r.next.input == l.input && Measure(r.next) < Measure(l)
    ensures !r.Diverge? ==> Faithful(l.input, r.items)
    ensures r.Diverge? <==> forall k :: l.pos <= k < |l.input| ==> IsSafeChar(RuneOf(l.input[k]))
    ensures r.Continue? || r.Diverge?
    ensures r.Continue? ==>
              |r.items| == 1 && r.items[0].typ == ItemParamValue && r.items[0].pos == l.start &&
              var j := r.next.pos;
              l.pos <= j < |l.input| && r.items[0].val == l.input[l.start..j] && r.next == At(l, j, LexContentLine) &&
              (forall k :: l.pos <= k < j ==> IsSafeChar(RuneOf(l.input[k]))) &&
              !IsSafeChar(RuneOf(l.input[j]))
  {
    match Absorb(l.input, l.pos, SafeChars)
    case None => Diverge
    case Some(j) => Continue([Emit(l, ItemParamValue, j)], At(l, j, LexContentLine))
  }

  /** lexParamValue: a quoted or an unquoted value. */
  function LexParamValueStep(l: Lexer): (r: Outcome)
    requires Valid(l) && l.state == LexParamValue
    ensures r.Continue? ==> Valid(r.next) && r.next.input == l.input && Measure(r.next) < Measure(l)
    ensures !r.Diverge? ==> Faithful(l.input, r.items)
    ensures r.Diverge? <==> AbsorbsToEnd(l)
  {
    if RuneAt(l.input, l.pos) == DQuote then LexQuotedValue(l) else LexUnquotedValue(l)
  }

  /** lexValue: the longest run of value characters. */
  function LexValueStep(l: Lexer): (r: Outcome)
    requires Valid(l) && l.state == LexValue
    ensures r.Continue? ==> Valid(r.next) && r.next.input == l.input && Measure(r.next) < Measure(l)
    ensures !r.Diverge? ==> Faithful(l.input, r.items)
    ensures r.Continue? && |r.items| == 1 && r.items[0].typ == ItemValue && r.items[0].pos == l.start
    ensures var j := r.next.pos;
      l.pos <= j <= |l.input| && r.next == At(l, j, LexNewLine) && r.items[0].val == l.input[l.start..j] &&
      (forall k :: l.pos <= k < j ==> IsValueChar(RuneOf(l.input[k]))) &&
      (j < |l.input| ==> !IsValueChar(RuneOf(l.input[j])))
  {
    var j := Span(l.input, l.pos, ValueChars);
    Continue([Emit(l, ItemValue, j)], At(l, j, LexNewLine))
  }

  /** Fewer than two bytes are left exactly when nothing is left or one
      ASCII character is. */
  lemma BytesBelowTwo(s: string)
    ensures Utf8Length(s) < 2 <==> |s| == 0 || (|s| == 1 && Utf8Width(RuneOf(s[0])) == 1)
  {
    if |s| > 0 {
      assert Utf8Length(s) == Utf8Width(RuneOf(s[0])) + Utf8Length(s[1..]);
    }
  }

  /** The characters that `l.pos += len(crlf)`, two bytes, passes over:
      two when the first is ASCII, otherwise the one multi-byte character. */
  function CrlfSkip(input: string, i: nat): (k: nat)
    requires i < |input|
    ensures 1 <= k <= 2
    ensures k == 2 <==> Utf8Width(RuneOf(input[i])) == 1
  {
    if Utf8Width(RuneOf(input[i])) == 1 then 2 else 1
  }

  /** lexNewLine once the skip of `k` characters stays inside the input: the
      line end covers them whatever they are, after an error token when they
      are not CRLF. */
  function LineEndAt(l: Lexer, err: seq<Item>, k: nat): (r: Outcome)
    requires 1 <= k && l.start <= l.pos && l.pos + k <= |l.input| && Faithful(l.input, err)
    ensures !r.Diverge? && !r.Crash? && Faithful(l.input, r.items)
    ensures var le := Item(ItemLineEnd, l.start, l.input[l.start..l.pos + k]);
      if l.pos + k == |l.input| then r == Halt(err + [le, Item(ItemEOF, l.pos + k, "")])
      else r == Continue(err + [le], At(l, l.pos + k, LexName))
  {
    var le := Emit(l, ItemLineEnd, l.pos + k);
    FaithfulEmit(l, ItemLineEnd, l.pos + k);
    if l.pos + k == |l.input| then
      FaithfulAppend(l.input, [le], [Item(ItemEOF, l.pos + k, "")]);
      FaithfulAppend(l.input, err, [le, Item(ItemEOF, l.pos + k, "")]);
      assert err + [le, Item(ItemEOF, l.pos + k, "")] == err + ([le] + [Item(ItemEOF, l.pos + k, "")]);
      Halt(err + [le, Item(ItemEOF, l.pos + k, "")])
    else
      FaithfulAppend(l.input, err, [le]);
      Continue(err + [le], At(l, l.pos + k, LexName))
  }

  /** lexNewLine: at the end of the input it stops without an EOF token;
      otherwise it expects CRLF. A missing CRLF emits an error token, yet the
      scanner still skips two bytes and emits a line end (the result of
      `errorf` is dropped); when fewer than two bytes remain, that slice is
      out of range and the scanner crashes. After a line end, the end of the
      input emits EOF and stops. */
  function LexNewLineStep(l: Lexer): (r: Outcome)
    requires Valid(l) && l.state == LexNewLine
    ensures r.Continue? ==> Valid(r.next) && r.next.input == l.input && Measure(r.next) < Measure(l)
    ensures !r.Diverge? ==> Faithful(l.input, r.items)
    ensures l.pos == |l.input| ==> r == Halt([])
    ensures l.pos < |l.input| && HasPrefix(l.input[l.pos..], "\r\n") ==>
              var le := Item(ItemLineEnd, l.start, l.input[l.start..l.pos + 2]);
              if l.pos + 2 == |l.input| then r == Halt([le, Item(ItemEOF, l.pos + 2, "")])
              else r == Continue([le], At(l, l.pos + 2, LexName))
    ensures l.pos < |l.input| && !HasPrefix(l.input[l.pos..], "\r\n") ==>
              !r.Diverge? && |r.items| >= 1 && r.items[0] == Item(ItemError, l.start, MissingCrlf) &&
              (Utf8Length(l.input[l.pos..]) < 2 <==> r.Crash?) &&
              (r.Halt? ==> |r.items| == 3 && r.items[1].typ == ItemLineEnd && r.items[2].typ == ItemEOF) &&
              (r.Continue? ==> |r.items| == 2 && r.items[1].typ == ItemLineEnd &&
                               r.next == At(l, l.pos + CrlfSkip(l.input, l.pos), LexName))
  {
    if l.pos >= |l.input| then Halt([])
    else
      var err := if HasPrefix(l.input[l.pos..], "\r\n") then [] else [Item(ItemError, l.start, MissingCrlf)];
      var k := CrlfSkip(l.input, l.pos);
      BytesBelowTwo(l.input[l.pos..]);
      if l.pos + k > |l.input| then Crash(err)
      else
        assert err == [] ==> [] + [Item(ItemLineEnd, l.start, l.input[l.start..l.pos + k])] == [Item(ItemLineEnd, l.start, l.input[l.start..l.pos + k])];
        assert HasPrefix(l.input[l.pos..], "\r\n") ==> l.input[l.pos] == '\r' && k == 2;
        LineEndAt(l, err, k)
  }

  /** One call of the current state function. */
  function Step(l: Lexer): (r: Outcome)
    requires Valid(l)
    ensures r.Continue? ==> |r.items| >= 1 && r.next.input == l.input && Valid(r.next) && Measure(r.next) < Measure(l)
    ensures r.Crash? ==> |r.items| == 1 && r.items[0].typ == ItemError
    ensures r.Diverge? <==> l.state == LexParamValue && AbsorbsToEnd(l)
    ensures !r.Diverge? ==> Faithful(l.input, r.items)
  {
    match l.state
    case LexName => LexNameStep(l)
    case LexContentLine => LexContentLineStep(l)
    case LexParamName => LexParamNameStep(l)
    case LexParamValue => LexParamValueStep(l)
    case LexValue => LexValueStep(l)
    case LexNewLine => LexNewLineStep(l)
  }

  /** What follows the tokens of a complete scan: the channel is closed (every
      further receive yields the zero token), the scanner loops forever, or
      it crashed. */
  datatype Tail = Closed | Hangs | Panics

  datatype Tokens = Tokens(items: seq<Item>, tail: Tail)

  /** `run`: every token the scanner emits from this state on. */
  function Run(l: Lexer): (t: Tokens)
    requires Valid(l)
    ensures Faithful(l.input, t.items)
    ensures t.tail == Panics ==> |t.items| >= 1 && t.items[|t.items| - 1].typ == ItemError
    decreases Measure(l)
  {
    match Step(l)
    case Continue(items, next) =>
      var rest := Run(next);
      FaithfulAppend(l.input, items, rest.items);
      Tokens(items + rest.items, rest.tail)
    case Halt(items) => Tokens(items, Closed)
    case Diverge => Tokens([], Hangs)
    case Crash(items) => Tokens(items, Panics)
  }

  /** `lex(input)`: the scanner starts in lexName at the first character. */
  function Initial(input: string): (l: Lexer)
    ensures Valid(l)
  {
    Lexer(input, 0, 0, LexName)
  }

  function Lex(input: string): (t: Tokens)
    ensures Faithful(input, t.items)
    ensures t.tail == Panics ==> |t.items| >= 1 && t.items[|t.items| - 1].typ == ItemError
  {
    Run(Initial(input))
  }

  /** The parser's end of the token channel: tokens the scanner has emitted
      but the parser has not yet received, and the scanner itself (running,
      or stopped with the given tail). */
  datatype Source = Running(lexer: Lexer) | Stopped(tail: Tail)

  datatype Cursor = Cursor(pending: seq<Item>, source: Source)

  predicate CursorValid(c: Cursor)
  {
    c.source.Running? ==> Valid(c.source.lexer)
  }

  /** The result of `nextItem`: a token, or no result because the scanner
      loops forever or crashed. */
  datatype Pull = Got(item: Item, rest: Cursor) | Blocked | Crashed

  function Open(input: string): (c: Cursor)
    ensures CursorValid(c)
  {
    Cursor([], Running(Initial(input)))
  }

  /** `nextItem`: receive one token, running the scanner when nothing is
      pending. A receive on the closed channel yields the zero token. */
  function Next(c: Cursor): (p: Pull)
    requires CursorValid(c)
    ensures p.Got? ==> CursorValid(p.rest)
  {
    if |c.pending| > 0 then Got(c.pending[0], c.(pending := c.pending[1..]))
    else Receive(c.source)
  }

  /** A receive when nothing is pending. */
  function Receive(s: Source): (p: Pull)
    requires s.Running? ==> Valid(s.lexer)
    ensures p.Got? ==> CursorValid(p.rest)
  {
    match s
    case Stopped(Closed) => Got(ZeroItem, Cursor([], s))
    case Stopped(Hangs) => Blocked
    case Stopped(Panics) => Crashed
    case Running(l) =>
      match Step(l)
      case Continue(items, next) => Got(items[0], Cursor(items[1..], Running(next)))
      case Halt(items) =>
        if |items| == 0 then Got(ZeroItem, Cursor([], Stopped(Closed)))
        else Got(items[0], Cursor(items[1..], Stopped(Closed)))
      case Diverge => Blocked
      case Crash(items) => Got(items[0], Cursor(items[1..], Stopped(Panics)))
  }

  /** What the scanner behind a cursor still emits. */
  function SourceTokens(s: Source): Tokens
    requires s.Running? ==> Valid(s.lexer)
  {
    match s
    case Running(l) => Run(l)
    case Stopped(t) => Tokens([], t)
  }

  /** Everything the parser can still receive from a cursor. */
  function Remaining(c: Cursor): Tokens
    requires CursorValid(c)
  {
    Tokens(c.pending + SourceTokens(c.source).items, SourceTokens(c.source).tail)
  }

  lemma ConsSplit(xs: seq<Item>, ys: seq<Item>)
    requires |xs| > 0
    ensures (xs + ys)[0] == xs[0] && (xs + ys)[1..] == xs[1..] + ys
  {
  }

  /** Receiving tokens one at a time yields exactly the tokens of a complete
      scan, then what its tail says: the zero token forever, no answer, or
      the crash. */
  lemma NextFollowsRun(c: Cursor)
    requires CursorValid(c)
    ensures var t := Remaining(c);
      if |t.items| > 0 then
        Next(c).Got? && Next(c).item == t.items[0] && Remaining(Next(c).rest) == Tokens(t.items[1..], t.tail)
      else if t.tail == Closed then
        Next(c).Got? && Next(c).item == ZeroItem && Remaining(Next(c).rest) == t
      else if t.tail == Hangs then Next(c).Blocked?
      else Next(c).Crashed?
  {
    if |c.pending| > 0 {
      PendingFirst(c);
    } else {
      SourceFirst(c);
    }
  }

  /** A pending token is handed out first. */
  lemma PendingFirst(c: Cursor)
    requires CursorValid(c) && |c.pending| > 0
    ensures var t := Remaining(c);
      |t.items| > 0 && Next(c).Got? && Next(c).item == t.items[0] && Remaining(Next(c).rest) == Tokens(t.items[1..], t.tail)
  {
    ConsSplit(c.pending, SourceTokens(c.source).items);
  }

  /** With nothing pending, the scanner behind the cursor decides. */
  lemma SourceFirst(c: Cursor)
    requires CursorValid(c) && |c.pending| == 0
    ensures var t := Remaining(c);
      if |t.items| > 0 then
        Next(c).Got? && Next(c).item == t.items[0] && Remaining(Next(c).rest) == Tokens(t.items[1..], t.tail)
      else if t.tail == Closed then
        Next(c).Got? && Next(c).item == ZeroItem && Remaining(Next(c).rest) == t
      else if t.tail == Hangs then Next(c).Blocked?
      else Next(c).Crashed?
  {
    assert Remaining(c) == SourceTokens(c.source);
    if c.source.Running? {
      RunningFirst(c.source.lexer);
    }
  }

  lemma RunningFirst(l: Lexer)
    requires Valid(l)
    ensures var c := Cursor([], Running(l)); var t := Run(l);
      if |t.items| > 0 then
        Next(c).Got? && Next(c).item == t.items[0] && Remaining(Next(c).rest) == Tokens(t.items[1..], t.tail)
      else if t.tail == Closed then
        Next(c).Got? && Next(c).item == ZeroItem && Remaining(Next(c).rest) == Remaining(c)
      else if t.tail == Hangs then Next(c).Blocked?
      else Next(c).Crashed?
  {
    if Step(l).Continue? {
      RunningContinues(l);
    } else if Step(l).Halt? {
      RunningHalts(l);
    }
  }

  lemma RunningContinues(l: Lexer)
    requires Valid(l) && Step(l).Continue?
    ensures var c := Cursor([], Running(l)); var t := Run(l);
      |t.items| > 0 && Next(c).Got? && Next(c).item == t.items[0] && Remaining(Next(c).rest) == Tokens(t.items[1..], t.tail)
  {
    var s := Step(l);
    assert Run(l) == Tokens(s.items + Run(s.next).items, Run(s.next).tail);
    ConsSplit(s.items, Run(s.next).items);
  }

  lemma RunningHalts(l: Lexer)
    requires Valid(l) && Step(l).Halt?
    ensures var c := Cursor([], Running(l)); var t := Run(l);
      if |t.items| > 0 then
        Next(c).Got? && Next(c).item == t.items[0] && Remaining(Next(c).rest) == Tokens(t.items[1..], t.tail)
      else
        t.tail == Closed && Next(c).Got? && Next(c).item == ZeroItem && Remaining(Next(c).rest) == Remaining(Cursor([], Running(l)))
  {
    var items := Step(l).items;
    assert Run(l) == Tokens(items, Closed);
    if |items| > 0 {
      assert items == items[..1] + items[1..];
    }
  }
}
