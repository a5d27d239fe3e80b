/** A property line written out as the scanner's tokens, and the parser
    reading it back (parse.go:279-391): the property that reaches the
    current component has exactly the name, the parameters and the value
    the line spells, each parameter's values in order. */
module ContentLines {
  import opened ICalendar
  import opened Items
  import opened ParserState
  import opened Scopes
  import opened Parsing
  import opened Time
  import opened Dates
  import Lex

  /* ---------- writing a line as tokens ---------- */

  function Token(typ: ItemType, val: string): Item
  {
    Item(typ, 0, val)
  }

  /** `,v2,v3…`: the values after the first one. */
  function MoreValueTokens(values: seq<string>): (ts: seq<Item>)
    ensures |ts| == 2 * |values|
  {
    if |values| == 0 then []
    else [Token(ItemComma, ","), Token(ItemParamValue, values[0])] + MoreValueTokens(values[1..])
  }

  /** `v1,v2…` */
  function ValueTokens(values: seq<string>): (ts: seq<Item>)
    requires |values| >= 1
    ensures |ts| == 2 * |values| - 1
  {
    [Token(ItemParamValue, values[0])] + MoreValueTokens(values[1..])
  }

  /** `;name=v1,v2…` for every entry, in order. */
  function ParamTokens(entries: seq<ParamEntry>): seq<Item>
    requires HaveValues(entries)
  {
    if |entries| == 0 then []
    else
      assert |entries[0].1| >= 1;
      assert HaveValues(entries[1..]) by {
        assert forall i :: 0 <= i < |entries[1..]| ==> entries[1..][i] == entries[i + 1];
      }
      [Token(ItemSemiColon, ";"), Token(ItemParamName, entries[0].0), Token(ItemEqual, "=")]
        + ValueTokens(entries[0].1) + ParamTokens(entries[1..])
  }

  /** `NAME;params:VALUE` and the CRLF. */
  function LineTokens(name: string, entries: seq<ParamEntry>, value: string): seq<Item>
    requires HaveValues(entries)
  {
    [Token(ItemName, name)] + ParamTokens(entries)
      + [Token(ItemColon, ":"), Token(ItemValue, value), Token(ItemLineEnd, "\r\n")]
  }

  /** The parser looks at a token's type and text, never at its offset:
      `items` from `at` on spell `ts`. */
  predicate Spelled(items: seq<Item>, at: nat, ts: seq<Item>)
    decreases |ts|
  {
    && at + |ts| <= |items|
    && (|ts| > 0 ==> items[at].typ == ts[0].typ && items[at].val == ts[0].val && Spelled(items, at + 1, ts[1..]))
  }

  lemma {:induction false} SpelledSplit(items: seq<Item>, at: nat, a: seq<Item>, b: seq<Item>)
    requires Spelled(items, at, a + b)
    ensures Spelled(items, at, a) && Spelled(items, at + |a|, b)
    decreases |a|
  {
    if |a| > 0 {
      assert (a + b)[1..] == a[1..] + b;
      SpelledSplit(items, at + 1, a[1..], b);
    } else {
      assert a + b == b;
    }
  }

  lemma {:induction false} SpelledAt(items: seq<Item>, at: nat, ts: seq<Item>, i: nat)
    requires Spelled(items, at, ts) && i < |ts|
    ensures items[at + i].typ == ts[i].typ && items[at + i].val == ts[i].val
    decreases i
  {
    if i > 0 {
      SpelledAt(items, at + 1, ts[1..], i - 1);
    }
  }

  /** The token after the parameters is neither `,` nor `;`. */
  predicate EndsParams(items: seq<Item>, at: nat)
  {
    at < |items| && items[at].typ != ItemComma && items[at].typ != ItemSemiColon
  }

  /** The token after a parameter's values is not `,`. */
  predicate EndsValues(items: seq<Item>, at: nat)
  {
    at < |items| && items[at].typ != ItemComma
  }

  /** The parser with `k` tokens read, none pushed back. */
  function After(tokens: Lex.Tokens, k: nat, m: Model): Parser
    requires 1 <= k <= |tokens.items|
  {
    Parser(k, false, tokens.items[k - 1], m)
  }

  /** The same, with the last one pushed back. */
  function Peeked(tokens: Lex.Tokens, k: nat, m: Model): Parser
    requires 1 <= k <= |tokens.items|
  {
    Parser(k, true, tokens.items[k - 1], m)
  }

  /** A read of the type that is there. */
  lemma ExpectHit(p: Parser, tokens: Lex.Tokens, typ: ItemType, what: Expected)
    requires p.pos <= |tokens.items| && TokenOk(p, tokens) && typ != ItemError
    requires p.peeked ==> p.token.typ != ItemError
    requires Consumed(p) < |tokens.items| && tokens.items[Consumed(p)].typ == typ
    ensures Consumed(p) >= 0
    ensures Expect(p, tokens, typ, what) == Ok(tokens.items[Consumed(p)], After(tokens, Consumed(p) + 1, p.m))
  {
  }

  /* ---------- reading it back ---------- */

  /** `,v` for each value after the first, then not a `,`. */
  predicate MoreValuesAt(items: seq<Item>, at: nat, values: seq<string>)
    ensures MoreValuesAt(items, at, values) ==> at + 2 * |values| < |items|
    decreases |values|
  {
    if |values| == 0 then EndsValues(items, at)
    else
      && at + 1 < |items| && items[at].typ == ItemComma
      && items[at + 1].typ == ItemParamValue && items[at + 1].val == values[0]
      && MoreValuesAt(items, at + 2, values[1..])
  }

  /** `v1,v2…`, then not a `,`. */
  predicate ValuesAt(items: seq<Item>, at: nat, values: seq<string>)
    ensures ValuesAt(items, at, values) ==> at + 2 * |values| <= |items|
  {
    && |values| >= 1 && at < |items|
    && items[at].typ == ItemParamValue && items[at].val == values[0]
    && MoreValuesAt(items, at + 1, values[1..])
  }

  /** What the tokens of the values after the first spell. */
  lemma {:induction false} MoreValuesSpelled(items: seq<Item>, at: nat, values: seq<string>)
    requires Spelled(items, at, MoreValueTokens(values)) && EndsValues(items, at + 2 * |values|)
    ensures MoreValuesAt(items, at, values)
    decreases |values|
  {
    if |values| > 0 {
      var ts := MoreValueTokens(values);
      SpelledAt(items, at, ts, 0);
      SpelledAt(items, at, ts, 1);
      SpelledSplit(items, at, ts[..2], ts[2..]);
      assert ts[2..] == MoreValueTokens(values[1..]);
      MoreValuesSpelled(items, at + 2, values[1..]);
    }
  }

  /** What the tokens of a value list spell. */
  lemma ValuesSpelled(items: seq<Item>, at: nat, values: seq<string>)
    requires |values| >= 1 && Spelled(items, at, ValueTokens(values))
    requires EndsValues(items, at + 2 * |values| - 1)
    ensures ValuesAt(items, at, values)
  {
    var ts := ValueTokens(values);
    SpelledAt(items, at, ts, 0);
    SpelledSplit(items, at, ts[..1], ts[1..]);
    assert ts[1..] == MoreValueTokens(values[1..]);
    MoreValuesSpelled(items, at + 1, values[1..]);
  }

  /** Values after the first: all of them, in order, and the token after
      them pushed back. */
  lemma {:induction false} MoreValuesRead(k: nat, tokens: Lex.Tokens, m: Model, values: seq<string>)
    requires 1 <= k <= |tokens.items| && MoreValuesAt(tokens.items, k, values)
    ensures k + 2 * |values| < |tokens.items|
    ensures ScanMoreValues(After(tokens, k, m), tokens) == Ok(values, Peeked(tokens, k + 2 * |values| + 1, m))
    decreases |values|
  {
    var p := After(tokens, k, m);
    assert Next(p, tokens) == Got(tokens.items[k], After(tokens, k + 1, m));
    if |values| > 0 {
      ExpectHit(After(tokens, k + 1, m), tokens, ItemParamValue, ParamValueToken);
      MoreValuesRead(k + 2, tokens, m, values[1..]);
      assert [values[0]] + values[1..] == values;
    }
  }

  /** `scanValues` reads back every value, in order. */
  lemma ValuesRead(k: nat, tokens: Lex.Tokens, m: Model, values: seq<string>)
    requires 1 <= k <= |tokens.items| && ValuesAt(tokens.items, k, values)
    ensures k + 2 * |values| <= |tokens.items|
    ensures ScanValues(After(tokens, k, m), tokens) == Ok(values, Peeked(tokens, k + 2 * |values|, m))
  {
    ExpectHit(After(tokens, k, m), tokens, ItemParamValue, ParamValueToken);
    MoreValuesRead(k + 1, tokens, m, values[1..]);
    assert [values[0]] + values[1..] == values;
  }

  /** After a `;`: a parameter name, `=`, the values, and then not a `,`. */
  predicate ParamAt(items: seq<Item>, at: nat, entry: ParamEntry)
    ensures ParamAt(items, at, entry) ==> at + 2 * |entry.1| + 2 <= |items|
  {
    && |entry.1| >= 1 && at + 2 <= |items|
    && items[at].typ == ItemParamName && items[at].val == entry.0 && items[at + 1].typ == ItemEqual
    && ValuesAt(items, at + 2, entry.1)
  }

  /** The tokens of the parameters, entry by entry, then not a `;`.
      Some lemmas below require a layout as `ParamsAt(…) == true` (or
      `ParamAt(…) == true`): the caller then hands the fact on whole
      instead of re-proving each of its conjuncts. */
  predicate ParamsAt(items: seq<Item>, at: nat, entries: seq<ParamEntry>)
    ensures ParamsAt(items, at, entries) ==> at + Width(entries) < |items|
    decreases |entries|
  {
    if |entries| == 0 then EndsParams(items, at)
    else
      && at < |items| && items[at].typ == ItemSemiColon && ParamAt(items, at + 1, entries[0])
      && ParamsAt(items, at + 2 * |entries[0].1| + 2, entries[1..])
  }

  /** One parameter after its semicolon; `next` is the position of the
      token after it. */
  lemma ParamRead(k: nat, tokens: Lex.Tokens, m: Model, entry: ParamEntry, next: nat)
    requires 1 <= k <= |tokens.items| && ParamAt(tokens.items, k, entry) == true && next == k + 2 * |entry.1| + 1
    ensures next < |tokens.items|
    ensures ScanParam(After(tokens, k, m), tokens) == Ok(entry, Peeked(tokens, next + 1, m))
  {
    ExpectHit(After(tokens, k, m), tokens, ItemParamName, ParamNameToken);
    ExpectHit(After(tokens, k + 1, m), tokens, ItemEqual, EqualToken);
    ValuesRead(k + 2, tokens, m, entry.1);
  }

  /** The first entry's tokens, then the others'. */
  lemma ParamTokensCons(entries: seq<ParamEntry>)
    requires HaveValues(entries) && |entries| >= 1
    ensures HaveValues(entries[1..]) && |entries[0].1| >= 1
    ensures ParamTokens(entries) ==
              [Token(ItemSemiColon, ";"), Token(ItemParamName, entries[0].0), Token(ItemEqual, "=")]
              + ValueTokens(entries[0].1) + ParamTokens(entries[1..])
  {
    assert forall i :: 0 <= i < |entries[1..]| ==> entries[1..][i] == entries[i + 1];
  }

  /** What the tokens of the first parameter spell, and where the others start. */
  lemma ParamHeadSpelled(items: seq<Item>, start: nat, entries: seq<ParamEntry>)
    requires HaveValues(entries) && |entries| >= 1
    requires Spelled(items, start, ParamTokens(entries))
    ensures HaveValues(entries[1..]) && |entries[0].1| >= 1
    ensures start + 3 <= |items| && items[start].typ == ItemSemiColon
    ensures items[start + 1].typ == ItemParamName && items[start + 1].val == entries[0].0
    ensures items[start + 2].typ == ItemEqual
    ensures Spelled(items, start + 3, ValueTokens(entries[0].1))
    ensures Spelled(items, start + 2 * |entries[0].1| + 2, ParamTokens(entries[1..]))
    ensures |ParamTokens(entries)| == 2 * |entries[0].1| + 2 + |ParamTokens(entries[1..])|
  {
    ParamTokensCons(entries);
    var entry := entries[0];
    var ts := ParamTokens(entries);
    var n := 2 * |entry.1| + 2;
    SpelledSplit(items, start, ts[..n], ts[n..]);
    assert ts[n..] == ParamTokens(entries[1..]);
    var head := ts[..n];
    assert head == [Token(ItemSemiColon, ";"), Token(ItemParamName, entry.0), Token(ItemEqual, "=")] + ValueTokens(entry.1);
    SpelledAt(items, start, head, 0);
    SpelledAt(items, start, head, 1);
    SpelledAt(items, start, head, 2);
    SpelledSplit(items, start, head[..3], head[3..]);
    assert head[3..] == ValueTokens(entry.1);
  }

  /** What the tokens of a parameter list spell, entry by entry. */
  lemma {:induction false} ParamsSpelled(items: seq<Item>, start: nat, entries: seq<ParamEntry>)
    requires HaveValues(entries)
    requires Spelled(items, start, ParamTokens(entries))
    requires EndsParams(items, start + |ParamTokens(entries)|)
    ensures ParamsAt(items, start, entries)
    decreases |entries|
  {
    if |entries| > 0 {
      ParamHeadSpelled(items, start, entries);
      var n := 2 * |entries[0].1| + 2;
      ParamsSpelled(items, start + n, entries[1..]);
      assert EndsValues(items, start + n) by {
        if |entries| > 1 {
          ParamHeadSpelled(items, start + n, entries[1..]);
        }
      }
      ValuesSpelled(items, start + 3, entries[0].1);
    }
  }

  /** The tokens `ParamsAt` walks over. */
  function Width(entries: seq<ParamEntry>): nat
  {
    if |entries| == 0 then 0 else 2 * |entries[0].1| + 2 + Width(entries[1..])
  }

  lemma {:induction false} WidthOfTokens(entries: seq<ParamEntry>)
    requires HaveValues(entries)
    ensures |ParamTokens(entries)| == Width(entries)
    decreases |entries|
  {
    if |entries| > 0 {
      ParamTokensCons(entries);
      WidthOfTokens(entries[1..]);
    }
  }

  /** `scanParams` after a semicolon is the parameter after it. */
  lemma ParamsAtSemicolon(p: Parser, tokens: Lex.Tokens)
    requires p.pos <= |tokens.items| && TokenOk(p, tokens)
    requires Next(p, tokens).Got? && Next(p, tokens).item.typ == ItemSemiColon
    ensures ScanParams(p, tokens) == ParamsAfterSemicolon(Next(p, tokens).p, tokens)
  {
  }

  /** `scanParams` pushes back anything but a semicolon and stops. */
  lemma ParamsStop(p: Parser, tokens: Lex.Tokens)
    requires p.pos <= |tokens.items| && TokenOk(p, tokens)
    requires Next(p, tokens).Got? && Next(p, tokens).item.typ != ItemSemiColon
    ensures ScanParams(p, tokens) == Ok([], Backup(Next(p, tokens).p))
  {
  }

  /** One parameter, then the others: `k` tokens read before the parameter,
      `next` the position after it, `end` the position after the others. */
  lemma ParamsCons(k: nat, tokens: Lex.Tokens, m: Model, entry: ParamEntry, next: nat, rest: seq<ParamEntry>, end: nat)
    requires 1 <= k <= next < end <= |tokens.items|
    requires ScanParam(After(tokens, k, m), tokens) == Ok(entry, Peeked(tokens, next + 1, m))
    requires ScanParams(Peeked(tokens, next + 1, m), tokens) == Ok(rest, Peeked(tokens, end, m))
    ensures ParamsAfterSemicolon(After(tokens, k, m), tokens) == Ok([entry] + rest, Peeked(tokens, end, m))
  {
  }

  /** The first entry, its tokens and the rest. */
  lemma ParamsAtCons(items: seq<Item>, at: nat, entries: seq<ParamEntry>)
    requires ParamsAt(items, at, entries) == true && |entries| >= 1
    ensures at < |items| && items[at].typ == ItemSemiColon && ParamAt(items, at + 1, entries[0])
    ensures ParamsAt(items, at + 2 * |entries[0].1| + 2, entries[1..])
    ensures Width(entries) == 2 * |entries[0].1| + 2 + Width(entries[1..])
    ensures [entries[0]] + entries[1..] == entries
  {
  }

  /** `scanParams` from any state whose next read is the token at `at`
      reads every entry, in order, and pushes back the token after them. */
  lemma {:induction false} ParamsReadFrom(p: Parser, at: nat, tokens: Lex.Tokens, m: Model,
                                          entries: seq<ParamEntry>, end: nat)
    requires p.pos <= |tokens.items| && TokenOk(p, tokens) && at < |tokens.items|
    requires Next(p, tokens) == Got(tokens.items[at], After(tokens, at + 1, m))
    requires ParamsAt(tokens.items, at, entries) && end == at + Width(entries) + 1
    ensures end <= |tokens.items|
    ensures ScanParams(p, tokens) == Ok(entries, Peeked(tokens, end, m))
    decreases |entries|, 2
  {
    if |entries| == 0 {
      ParamsStop(p, tokens);
    } else {
      ParamsAtSemicolon(p, tokens);
      ParamsReadFirst(at, tokens, m, entries, end);
    }
  }

  /** The first entry, then the others. */
  lemma {:induction false} ParamsReadFirst(at: nat, tokens: Lex.Tokens, m: Model, entries: seq<ParamEntry>, end: nat)
    requires ParamsAt(tokens.items, at, entries) && end == at + Width(entries) + 1 && |entries| >= 1
    ensures end <= |tokens.items|
    ensures ParamsAfterSemicolon(After(tokens, at + 1, m), tokens) == Ok(entries, Peeked(tokens, end, m))
    decreases |entries|, 1
  {
    ParamsAtCons(tokens.items, at, entries);
    var next := at + 2 * |entries[0].1| + 2;
    ParamRead(at + 1, tokens, m, entries[0], next);
    ParamsReadRest(at + 1, tokens, m, entries[0], next, entries[1..], end);
  }

  /** With the first entry read (`k` tokens before it, `next` the position
      after it), the others follow. */
  lemma {:induction false} ParamsReadRest(k: nat, tokens: Lex.Tokens, m: Model, entry: ParamEntry, next: nat,
                                          rest: seq<ParamEntry>, end: nat)
    requires 1 <= k <= next < |tokens.items|
    requires ScanParam(After(tokens, k, m), tokens) == Ok(entry, Peeked(tokens, next + 1, m))
    requires ParamsAt(tokens.items, next, rest) == true && end == next + Width(rest) + 1
    ensures end <= |tokens.items|
    ensures ParamsAfterSemicolon(After(tokens, k, m), tokens) == Ok([entry] + rest, Peeked(tokens, end, m))
    decreases |rest| + 1, 0
  {
    PeekedReads(tokens, next + 1, m);
    ParamsReadFrom(Peeked(tokens, next + 1, m), next, tokens, m, rest, end);
    ParamsCons(k, tokens, m, entry, next, rest, end);
  }

  /** A pushed-back token is read again. */
  lemma PeekedReads(tokens: Lex.Tokens, k: nat, m: Model)
    requires 1 <= k <= |tokens.items|
    ensures Next(Peeked(tokens, k, m), tokens) == Got(tokens.items[k - 1], After(tokens, k, m))
  {
  }

  /** `:`, a value token holding `value`, and a line end. */
  predicate ValueAt(items: seq<Item>, at: nat, value: string)
  {
    && at + 3 <= |items|
    && items[at].typ == ItemColon
    && items[at + 1].typ == ItemValue && items[at + 1].val == value
    && items[at + 2].typ == ItemLineEnd
  }

  /** A property line, piece by piece. */
  predicate LineAt(items: seq<Item>, at: nat, name: string, entries: seq<ParamEntry>, value: string)
  {
    && at < |items| && items[at].typ == ItemName && items[at].val == name
    && ParamsAt(items, at + 1, entries) && ValueAt(items, at + 1 + Width(entries), value)
  }

  /** What the tokens of a property line spell, piece by piece. */
  lemma LineSpelled(items: seq<Item>, at: nat, name: string, entries: seq<ParamEntry>, value: string)
    requires HaveValues(entries) && Spelled(items, at, LineTokens(name, entries, value))
    ensures LineAt(items, at, name, entries, value)
    ensures |LineTokens(name, entries, value)| == Width(entries) + 4
  {
    var params := ParamTokens(entries);
    var tail := [Token(ItemColon, ":"), Token(ItemValue, value), Token(ItemLineEnd, "\r\n")];
    var ts := LineTokens(name, entries, value);
    WidthOfTokens(entries);
    SpelledAt(items, at, ts, 0);
    assert ts == [Token(ItemName, name)] + (params + tail);
    SpelledSplit(items, at, [Token(ItemName, name)], params + tail);
    SpelledSplit(items, at + 1, params, tail);
    var end := at + 1 + |params|;
    SpelledAt(items, end, tail, 0);
    SpelledAt(items, end, tail, 1);
    SpelledAt(items, end, tail, 2);
    ParamsSpelled(items, at + 1, entries);
  }

  /** `scanParams` just after the property name reads back every entry,
      in order, and pushes back the token after them (the one at `at`). */
  lemma ParamsRead(k: nat, tokens: Lex.Tokens, m: Model, entries: seq<ParamEntry>, at: nat)
    requires 1 <= k < |tokens.items| && ParamsAt(tokens.items, k, entries) && at == k + Width(entries)
    ensures at < |tokens.items|
    ensures ScanParams(After(tokens, k, m), tokens) == Ok(entries, Peeked(tokens, at + 1, m))
  {
    var p := After(tokens, k, m);
    assert Next(p, tokens) == Got(tokens.items[k], After(tokens, k + 1, m));
    ParamsReadFrom(p, k, tokens, m, entries, at + 1);
  }

  /** The `:`, the value and the CRLF, with the `:` pushed back. */
  lemma LineEndRead(name: Item, at: nat, tokens: Lex.Tokens, m: Model, value: string)
    requires ValueAt(tokens.items, at, value)
    ensures ScanLineEnd(name, Peeked(tokens, at + 1, m), tokens) == Ok(value, After(tokens, at + 3, m))
  {
    ExpectHit(Peeked(tokens, at + 1, m), tokens, ItemColon, ColonToken);
    ExpectHit(After(tokens, at + 1, m), tokens, ItemValue, ValueToken);
    ExpectHit(After(tokens, at + 2, m), tokens, ItemLineEnd, CrlfToken);
  }

  /** Parameters, then the end of the line: the property they make. */
  lemma PropertyCons(name: Item, k: nat, tokens: Lex.Tokens, m: Model, entries: seq<ParamEntry>,
                     at: nat, value: string)
    requires 1 <= k <= at + 1 && at + 3 <= |tokens.items|
    requires ScanParams(After(tokens, k, m), tokens) == Ok(entries, Peeked(tokens, at + 1, m))
    requires ScanLineEnd(name, Peeked(tokens, at + 1, m), tokens) == Ok(value, After(tokens, at + 3, m))
    ensures ScanProperty(name, After(tokens, k, m), tokens) ==
              Ok(Property(name.val, ParamMap(entries), value), After(tokens, at + 3, m))
  {
  }

  /** The rest of the line after the name: the property it spells, with
      the value part starting at `at`. */
  lemma PropertyRead(name: Item, k: nat, tokens: Lex.Tokens, m: Model, entries: seq<ParamEntry>,
                     at: nat, value: string)
    requires 1 <= k < |tokens.items| && ParamsAt(tokens.items, k, entries) && at == k + Width(entries)
    requires ValueAt(tokens.items, at, value)
    ensures ScanProperty(name, After(tokens, k, m), tokens) ==
              Ok(Property(name.val, ParamMap(entries), value), After(tokens, at + 3, m))
  {
    LineEndRead(name, at, tokens, m, value);
    ParamsRead(k, tokens, m, entries, at);
    PropertyCons(name, k, tokens, m, entries, at, value);
  }

  /** A read with nothing pushed back takes the next token. */
  lemma NextReads(p: Parser, tokens: Lex.Tokens)
    requires !p.peeked && p.pos < |tokens.items|
    ensures Next(p, tokens) == Got(tokens.items[p.pos], After(tokens, p.pos + 1, p.m))
  {
  }

  /** A property line, read in any scope, adds exactly the property it
      spells to the component of that scope, and the parser stands just
      after the line. */
  lemma ContentLineRead(p: Parser, tokens: Lex.Tokens, zone: Zone, lib: TimeLib,
                        name: string, entries: seq<ParamEntry>, value: string)
    requires ParserOk(p, tokens) && !p.peeked && HaveValues(entries)
    requires Spelled(tokens.items, p.pos, LineTokens(name, entries, value))
    ensures WellFormed(Property(name, ParamMap(entries), value))
    ensures ScanContentLine(p, tokens, zone, lib) ==
              Ok(Proceed, After(tokens, p.pos + |LineTokens(name, entries, value)|,
                                AddProperty(p.m, Property(name, ParamMap(entries), value))))
  {
    LineRead(p, tokens, name, entries, value);
    NextReads(p, tokens);
  }

  /** The line starts with its name token, and what follows the name is the
      property the line spells. */
  lemma LineRead(p: Parser, tokens: Lex.Tokens, name: string, entries: seq<ParamEntry>, value: string)
    requires ParserOk(p, tokens) && !p.peeked && HaveValues(entries)
    requires Spelled(tokens.items, p.pos, LineTokens(name, entries, value))
    ensures WellFormed(Property(name, ParamMap(entries), value))
    ensures p.pos < |tokens.items| && tokens.items[p.pos].typ == ItemName
    ensures PropertyLine(tokens.items[p.pos], After(tokens, p.pos + 1, p.m), tokens) ==
              Ok(Proceed, After(tokens, p.pos + |LineTokens(name, entries, value)|,
                                AddProperty(p.m, Property(name, ParamMap(entries), value))))
  {
    LineSpelled(tokens.items, p.pos, name, entries, value);
    LinePartsRead(p, tokens, name, entries, value, p.pos + |LineTokens(name, entries, value)|);
  }

  /** The same, with the line given piece by piece and `end` the position
      after its line end. */
  lemma LinePartsRead(p: Parser, tokens: Lex.Tokens, name: string, entries: seq<ParamEntry>, value: string, end: nat)
    requires ParserOk(p, tokens) && !p.peeked && HaveValues(entries)
    requires LineAt(tokens.items, p.pos, name, entries, value)
    requires end == p.pos + Width(entries) + 4
    ensures WellFormed(Property(name, ParamMap(entries), value))
    ensures PropertyLine(tokens.items[p.pos], After(tokens, p.pos + 1, p.m), tokens) ==
              Ok(Proceed, After(tokens, end, AddProperty(p.m, Property(name, ParamMap(entries), value))))
  {
    var item := tokens.items[p.pos];
    var prop := Property(name, ParamMap(entries), value);
    ParamMapWellFormed(entries);
    PropertyRead(item, p.pos + 1, tokens, p.m, entries, end - 3, value);
    PropertyLineRead(item, p.pos + 1, tokens, p.m, prop, end);
  }

  /** `PropertyLine` hands the property `ScanProperty` read to the model. */
  lemma PropertyLineRead(name: Item, k: nat, tokens: Lex.Tokens, m: Model, prop: Property, end: nat)
    requires 1 <= k <= end <= |tokens.items| && ModelOk(m) && WellFormed(prop)
    requires ScanProperty(name, After(tokens, k, m), tokens) == Ok(prop, After(tokens, end, m))
    ensures DateParamsOk(prop)
    ensures PropertyLine(name, After(tokens, k, m), tokens) == Ok(Proceed, After(tokens, end, AddProperty(m, prop)))
  {
    WellFormedDates(prop);
  }
}
