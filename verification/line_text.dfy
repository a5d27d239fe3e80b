/** The text of a property line and what the scanner makes of it (lex.go:172-186
    and 213-470): `NAME;P=v1,v2:VALUE` followed by CRLF scans into exactly
    the tokens `ContentLines.LineTokens` lists, so the parser reads back from
    the text the name, the parameters and the value it spells. */
module LineText {
  import opened Util
  import opened Runes
  import opened Items
  import opened Time
  import opened ICalendar
  import opened ParserState
  import opened Scopes
  import opened Parsing
  import opened ContentLines
  import Lex

  /* ---------- writing a line as text ---------- */

  /** `,v2,v3…`: the values after the first one. */
  function MoreValuesText(values: seq<string>): string
    decreases |values|
  {
    if |values| == 0 then "" else "," + values[0] + MoreValuesText(values[1..])
  }

  /** `v1,v2…` */
  function ValuesText(values: seq<string>): string
    requires |values| >= 1
  {
    values[0] + MoreValuesText(values[1..])
  }

  /** `;name=v1,v2…` for every entry, in order. */
  function ParamsText(entries: seq<ParamEntry>): string
    requires HaveValues(entries)
    decreases |entries|
  {
    if |entries| == 0 then ""
    else
      ParamTokensCons(entries);
      ";" + entries[0].0 + "=" + ValuesText(entries[0].1) + ParamsText(entries[1..])
  }

  /** `NAME;params:VALUE` and the CRLF. */
  function LineText(name: string, entries: seq<ParamEntry>, value: string): string
    requires HaveValues(entries)
  {
    name + ParamsText(entries) + ":" + value + "\r\n"
  }

  predicate NameRun(s: string)
  {
    forall i :: 0 <= i < |s| ==> IsName(RuneOf(s[i]))
  }

  predicate SafeRun(s: string)
  {
    forall i :: 0 <= i < |s| ==> IsSafeChar(RuneOf(s[i]))
  }

  predicate ValueRun(s: string)
  {
    forall i :: 0 <= i < |s| ==> IsValueChar(RuneOf(s[i]))
  }

  predicate SafeRuns(values: seq<string>)
  {
    forall j :: 0 <= j < |values| ==> SafeRun(values[j])
  }

  /** Parameters written without quotes: names of name characters, and at
      least one value per parameter, each of safe characters. */
  predicate Writable(entries: seq<ParamEntry>)
  {
    && HaveValues(entries)
    && forall i :: 0 <= i < |entries| ==> NameRun(entries[i].0) && SafeRuns(entries[i].1)
  }

  /** A property line as it can be written: the pieces are runs of the
      classes the scanner absorbs, and the line does not start with a
      delimiter keyword, which lexName tests before anything else. */
  predicate PropertyText(name: string, entries: seq<ParamEntry>, value: string)
  {
    && NameRun(name) && Writable(entries) && ValueRun(value)
    && forall b, c :: !HasPrefix(LineText(name, entries, value), KeywordText(b, c))
  }

  /** The input holds `s` from index `q` on. */
  predicate Lays(input: string, q: nat, s: string)
  {
    q + |s| <= |input| && input[q..q + |s|] == s
  }

  lemma LaysSplit(input: string, q: nat, a: string, b: string)
    requires Lays(input, q, a + b)
    ensures Lays(input, q, a) && Lays(input, q + |a|, b)
  {
    assert input[q..q + |a|] == input[q..q + |a + b|][..|a|];
    assert input[q + |a|..q + |a| + |b|] == input[q..q + |a + b|][|a|..];
  }

  lemma LaysAll(input: string, q: nat, s: string)
    requires Lays(input, q, s)
    ensures forall k :: q <= k < q + |s| ==> input[k] == s[k - q]
  {
    forall k | q <= k < q + |s| ensures input[k] == s[k - q] {
      assert input[q..q + |s|][k - q] == input[k];
    }
  }

  lemma LaysChar(input: string, q: nat, s: string, i: nat)
    requires Lays(input, q, s) && i < |s|
    ensures input[q + i] == s[i]
  {
    assert input[q..q + |s|][i] == input[q + i];
  }


  /* ---------- what scanning emits ---------- */

  /** The scanner at index `q` in state `s`, with nothing pending. */
  function Start(input: string, q: nat, s: Lex.State): (l: Lex.Lexer)
    requires q <= |input|
    ensures Lex.Valid(l) && l.input == input && l.pos == q && l.state == s
  {
    Lex.Lexer(input, q, q, s)
  }

  /** The tokens have the types and texts of `ts`, wherever they start. */
  predicate SameText(xs: seq<Item>, ts: seq<Item>)
  {
    |xs| == |ts| && forall i :: 0 <= i < |xs| ==> xs[i].typ == ts[i].typ && xs[i].val == ts[i].val
  }

  /** `t` starts with tokens spelling `ts` and goes on exactly as `t2`. */
  predicate Follows(t: Lex.Tokens, ts: seq<Item>, t2: Lex.Tokens)
  {
    && |t.items| == |ts| + |t2.items| && SameText(t.items[..|ts|], ts)
    && t.items[|ts|..] == t2.items && t.tail == t2.tail
  }

  lemma FollowsNone(t: Lex.Tokens)
    ensures Follows(t, [], t)
  {
    assert t.items[0..] == t.items;
  }

  lemma FollowsChain(t1: Lex.Tokens, a: seq<Item>, t2: Lex.Tokens, b: seq<Item>, t3: Lex.Tokens)
    requires Follows(t1, a, t2) && Follows(t2, b, t3)
    ensures Follows(t1, a + b, t3)
  {
    assert t2.items == t2.items[..|b|] + t2.items[|b|..];
    assert t1.items == t1.items[..|a|] + t2.items;
    assert t1.items[..|a + b|] == t1.items[..|a|] + t2.items[..|b|];
    assert t1.items[|a + b|..] == t2.items[|b|..];
  }

  /** What the scanner emits from a state: `run` for a valid one. */
  function RunOf(l: Lex.Lexer): Lex.Tokens
  {
    if Lex.Valid(l) then Lex.Run(l) else Lex.Tokens([], Lex.Closed)
  }

  /** A state function that goes on: its tokens, then the scan from its next state. */
  lemma StepFollows(l: Lex.Lexer, ts: seq<Item>)
    requires Lex.Valid(l) && Lex.Step(l).Continue? && SameText(Lex.Step(l).items, ts)
    ensures Follows(RunOf(l), ts, RunOf(Lex.Step(l).next))
  {
    var s := Lex.Step(l);
    var rest := Lex.Run(s.next);
    assert Lex.Run(l) == Lex.Tokens(s.items + rest.items, rest.tail);
    assert (s.items + rest.items)[..|ts|] == s.items;
    assert (s.items + rest.items)[|ts|..] == rest.items;
  }

  /* ---------- one state function at a time ---------- */

  /** No delimiter keyword starts the input at `q`. */
  predicate NoKeywordAt(input: string, q: nat)
    requires q <= |input|
  {
    forall b, c :: !HasPrefix(input[q..], KeywordText(b, c))
  }

  /** A name at `q`, ended by a character that is not a name character. */
  predicate NameLaid(input: string, q: nat, name: string)
  {
    && Lays(input, q, name) && q + |name| < |input| && NameRun(name)
    && !IsName(RuneOf(input[q + |name|])) && NoKeywordAt(input, q)
  }

  predicate PunctLaid(input: string, q: nat, c: char)
  {
    q < |input| && input[q] == c
  }

  /** A parameter name at `q`, followed by '='. */
  predicate ParamNameLaid(input: string, q: nat, name: string)
  {
    Lays(input, q, name) && q + |name| < |input| && NameRun(name) && input[q + |name|] == '='
  }

  /** The characters that end a parameter value in a written line. */
  predicate EndsValue(c: char)
  {
    c == ',' || c == ';' || c == ':'
  }

  /** An unquoted parameter value at `q`, followed by ',', ';' or ':'. */
  predicate ParamValueLaid(input: string, q: nat, v: string)
  {
    Lays(input, q, v) && q + |v| < |input| && SafeRun(v) && EndsValue(input[q + |v|])
  }

  /** A property value at `q`, followed by CR. */
  predicate ValueLaid(input: string, q: nat, value: string)
  {
    Lays(input, q, value) && q + |value| < |input| && ValueRun(value) && input[q + |value|] == '\r'
  }

  predicate CrlfLaid(input: string, q: nat)
  {
    q + 2 <= |input| && input[q] == '\r' && input[q + 1] == '\n'
  }

  /** Where no keyword starts, lexName scans a name. */
  lemma NameRunIsStep(l: Lex.Lexer)
    requires Lex.Valid(l) && l.state == Lex.LexName && NoKeywordAt(l.input, l.pos)
    ensures Lex.Step(l) == Lex.LexNameRun(l)
  {
    assert Lex.KeywordAt(l.input, l.pos).None?;
  }

  /** lexName on a name that is not a delimiter keyword. */
  lemma NameStep(input: string, q: nat, name: string)
    requires NameLaid(input, q, name)
    ensures Lex.Step(Start(input, q, Lex.LexName)) ==
              Lex.Continue([Item(ItemName, q, name)], Start(input, q + |name|, Lex.LexContentLine))
  {
    var l := Start(input, q, Lex.LexName);
    LaysAll(input, q, name);
    NameRunIsStep(l);
    var r := Lex.LexNameRun(l);
    var j := r.next.pos;
    assert j == q + |name|;
  }

  /** lexContentLine on the three punctuation characters. */
  lemma PunctStep(input: string, q: nat)
    requires q < |input|
    ensures input[q] == ';' ==>
              Lex.Step(Start(input, q, Lex.LexContentLine)) ==
                Lex.Continue([Item(ItemSemiColon, q, ";")], Start(input, q + 1, Lex.LexParamName))
    ensures input[q] == ',' ==>
              Lex.Step(Start(input, q, Lex.LexContentLine)) ==
                Lex.Continue([Item(ItemComma, q, ",")], Start(input, q + 1, Lex.LexParamValue))
    ensures input[q] == ':' ==>
              Lex.Step(Start(input, q, Lex.LexContentLine)) ==
                Lex.Continue([Item(ItemColon, q, ":")], Start(input, q + 1, Lex.LexValue))
  {
    var l := Start(input, q, Lex.LexContentLine);
    assert Lex.Step(l) == Lex.LexContentLineStep(l);
    assert input[q..q + 1] == [input[q]];
  }

  /** lexParamName on a name followed by '='. */
  lemma ParamNameStep(input: string, q: nat, name: string)
    requires ParamNameLaid(input, q, name)
    ensures Lex.Step(Start(input, q, Lex.LexParamName)) ==
              Lex.Continue([Item(ItemParamName, q, name), Item(ItemEqual, q + |name|, "=")],
                           Start(input, q + |name| + 1, Lex.LexParamValue))
  {
    var l := Start(input, q, Lex.LexParamName);
    LaysAll(input, q, name);
    var r := Lex.LexParamNameStep(l);
    assert Lex.Step(l) == r;
    var j := r.items[0].pos + |r.items[0].val|;
    assert j == q + |name|;
  }

  /** lexParamValue on an unquoted value. */
  lemma ParamValueStep(input: string, q: nat, v: string)
    requires ParamValueLaid(input, q, v)
    ensures Lex.Step(Start(input, q, Lex.LexParamValue)) ==
              Lex.Continue([Item(ItemParamValue, q, v)], Start(input, q + |v|, Lex.LexContentLine))
  {
    var l := Start(input, q, Lex.LexParamValue);
    LaysAll(input, q, v);
    assert Lex.RuneAt(input, q) != DQuote;
    var r := Lex.LexUnquotedValue(l);
    assert Lex.Step(l) == r;
    assert !IsSafeChar(RuneOf(input[q + |v|]));
    var j := r.next.pos;
    assert j == q + |v|;
  }

  /** lexValue on a value followed by CR. */
  lemma ValueStep(input: string, q: nat, value: string)
    requires ValueLaid(input, q, value)
    ensures Lex.Step(Start(input, q, Lex.LexValue)) ==
              Lex.Continue([Item(ItemValue, q, value)], Start(input, q + |value|, Lex.LexNewLine))
  {
    var l := Start(input, q, Lex.LexValue);
    LaysAll(input, q, value);
    var r := Lex.LexValueStep(l);
    assert Lex.Step(l) == r;
    var j := r.next.pos;
    assert j == q + |value|;
  }

  /** lexNewLine on CRLF: the line end, then EOF at the end of the input. */
  lemma CrlfStep(input: string, q: nat)
    requires CrlfLaid(input, q)
    ensures q + 2 == |input| ==>
              Lex.Step(Start(input, q, Lex.LexNewLine)) ==
                Lex.Halt([Item(ItemLineEnd, q, "\r\n"), Item(ItemEOF, q + 2, "")])
    ensures q + 2 < |input| ==>
              Lex.Step(Start(input, q, Lex.LexNewLine)) ==
                Lex.Continue([Item(ItemLineEnd, q, "\r\n")], Start(input, q + 2, Lex.LexName))
  {
    var l := Start(input, q, Lex.LexNewLine);
    assert input[q..][..2] == input[q..q + 2] == "\r\n";
    assert Lex.Step(l) == Lex.LexNewLineStep(l);
  }

  /* ---------- the scan of a line, from the facts about single steps ---------- */

  /** What follows a line ending at `e`: EOF when the input ends there,
      otherwise the scan of the next line. */
  function AfterLine(run: Lex.Lexer -> Lex.Tokens, input: string, e: nat): Lex.Tokens
    requires e <= |input|
  {
    if e < |input| then run(Start(input, e, Lex.LexName)) else Lex.Tokens([Item(ItemEOF, e, "")], Lex.Closed)
  }

  /* Each rule says that `run` does on one piece of a line what the state
     function for that piece does. */

  ghost predicate NameRule(run: Lex.Lexer -> Lex.Tokens, input: string)
  {
    forall q: nat, name: string {:trigger NameLaid(input, q, name)} :: NameLaid(input, q, name) ==>
      Follows(run(Start(input, q, Lex.LexName)), [Token(ItemName, name)],
              run(Start(input, q + |name|, Lex.LexContentLine)))
  }

  ghost predicate SemiColonRule(run: Lex.Lexer -> Lex.Tokens, input: string)
  {
    forall q: nat {:trigger PunctLaid(input, q, ';')} :: PunctLaid(input, q, ';') ==>
      Follows(run(Start(input, q, Lex.LexContentLine)), [Token(ItemSemiColon, ";")],
              run(Start(input, q + 1, Lex.LexParamName)))
  }

  ghost predicate CommaRule(run: Lex.Lexer -> Lex.Tokens, input: string)
  {
    forall q: nat {:trigger PunctLaid(input, q, ',')} :: PunctLaid(input, q, ',') ==>
      Follows(run(Start(input, q, Lex.LexContentLine)), [Token(ItemComma, ",")],
              run(Start(input, q + 1, Lex.LexParamValue)))
  }

  ghost predicate ColonRule(run: Lex.Lexer -> Lex.Tokens, input: string)
  {
    forall q: nat {:trigger PunctLaid(input, q, ':')} :: PunctLaid(input, q, ':') ==>
      Follows(run(Start(input, q, Lex.LexContentLine)), [Token(ItemColon, ":")],
              run(Start(input, q + 1, Lex.LexValue)))
  }

  ghost predicate ParamNameRule(run: Lex.Lexer -> Lex.Tokens, input: string)
  {
    forall q: nat, name: string {:trigger ParamNameLaid(input, q, name)} :: ParamNameLaid(input, q, name) ==>
      Follows(run(Start(input, q, Lex.LexParamName)), [Token(ItemParamName, name), Token(ItemEqual, "=")],
              run(Start(input, q + |name| + 1, Lex.LexParamValue)))
  }

  ghost predicate ParamValueRule(run: Lex.Lexer -> Lex.Tokens, input: string)
  {
    forall q: nat, v: string {:trigger ParamValueLaid(input, q, v)} :: ParamValueLaid(input, q, v) ==>
      Follows(run(Start(input, q, Lex.LexParamValue)), [Token(ItemParamValue, v)],
              run(Start(input, q + |v|, Lex.LexContentLine)))
  }

  ghost predicate ValueRule(run: Lex.Lexer -> Lex.Tokens, input: string)
  {
    forall q: nat, value: string {:trigger ValueLaid(input, q, value)} :: ValueLaid(input, q, value) ==>
      Follows(run(Start(input, q, Lex.LexValue)), [Token(ItemValue, value)],
              run(Start(input, q + |value|, Lex.LexNewLine)))
  }

  ghost predicate LineEndRule(run: Lex.Lexer -> Lex.Tokens, input: string)
  {
    forall q: nat {:trigger CrlfLaid(input, q)} :: CrlfLaid(input, q) ==>
      Follows(run(Start(input, q, Lex.LexNewLine)), [Token(ItemLineEnd, "\r\n")], AfterLine(run, input, q + 2))
  }

  /** The rules a parameter list needs. */
  ghost predicate ParamRules(run: Lex.Lexer -> Lex.Tokens, input: string)
  {
    SemiColonRule(run, input) && ParamNameRule(run, input) && CommaRule(run, input) && ParamValueRule(run, input)
  }

  /** `run` behaves as the scanner does on each piece of a property line. */
  ghost predicate Scans(run: Lex.Lexer -> Lex.Tokens, input: string)
  {
    && NameRule(run, input) && ParamRules(run, input)
    && ColonRule(run, input) && ValueRule(run, input) && LineEndRule(run, input)
  }

  /** `,v` then the rest, as laid in the input. */
  lemma {:induction false} MoreValuesParts(input: string, q: nat, values: seq<string>)
    requires |values| >= 1 && Lays(input, q, MoreValuesText(values)) && SafeRuns(values)
    requires q + |MoreValuesText(values)| < |input| && EndsValue(input[q + |MoreValuesText(values)|])
    ensures PunctLaid(input, q, ',') && ParamValueLaid(input, q + 1, values[0])
    ensures var q2 := q + 1 + |values[0]|;
      && Lays(input, q2, MoreValuesText(values[1..])) && SafeRuns(values[1..])
      && q2 + |MoreValuesText(values[1..])| == q + |MoreValuesText(values)|
  {
    var v := values[0];
    var tail := values[1..];
    var rest := MoreValuesText(tail);
    assert MoreValuesText(values) == "," + v + rest;
    LaysComma(input, q, v, rest);
    var q2 := q + 1 + |v|;
    if |tail| > 0 {
      CommaFirst(tail);
      LaysChar(input, q2, rest, 0);
    } else {
      assert rest == "";
    }
    assert EndsValue(input[q2]);
    assert SafeRun(v);
    assert SafeRuns(tail) by {
      forall j | 0 <= j < |tail| ensures SafeRun(tail[j]) {
        assert tail[j] == values[j + 1];
      }
    }
  }

  lemma {:induction false} CommaFirst(values: seq<string>)
    requires |values| >= 1
    ensures |MoreValuesText(values)| >= 1 && MoreValuesText(values)[0] == ','
  {
    assert MoreValuesText(values) == "," + (values[0] + MoreValuesText(values[1..]));
  }

  lemma {:induction false} LaysComma(input: string, q: nat, v: string, rest: string)
    requires Lays(input, q, "," + v + rest)
    ensures input[q] == ',' && Lays(input, q + 1, v) && Lays(input, q + 1 + |v|, rest)
  {
    LaysSplit(input, q, "," + v, rest);
    LaysSplit(input, q, ",", v);
    LaysChar(input, q, ",", 0);
  }

  /** The values after the first, each after its comma. */
  lemma {:induction false} MoreValuesScan(run: Lex.Lexer -> Lex.Tokens, input: string, q: nat, values: seq<string>)
    requires CommaRule(run, input) && ParamValueRule(run, input)
    requires Lays(input, q, MoreValuesText(values)) && SafeRuns(values)
    requires q + |MoreValuesText(values)| < |input| && EndsValue(input[q + |MoreValuesText(values)|])
    ensures Follows(run(Start(input, q, Lex.LexContentLine)), MoreValueTokens(values),
                    run(Start(input, q + |MoreValuesText(values)|, Lex.LexContentLine)))
    decreases |values|
  {
    if |values| == 0 {
      FollowsNone(run(Start(input, q, Lex.LexContentLine)));
    } else {
      var v := values[0];
      var q2 := q + 1 + |v|;
      MoreValuesParts(input, q, values);
      MoreValuesScan(run, input, q2, values[1..]);
      var t0 := run(Start(input, q, Lex.LexContentLine));
      var t2 := run(Start(input, q2, Lex.LexContentLine));
      FollowsChain(t0, [Token(ItemComma, ",")], run(Start(input, q + 1, Lex.LexParamValue)), [Token(ItemParamValue, v)], t2);
      FollowsChain(t0, [Token(ItemComma, ","), Token(ItemParamValue, v)], t2,
                   MoreValueTokens(values[1..]), run(Start(input, q + |MoreValuesText(values)|, Lex.LexContentLine)));
    }
  }

  /** A parameter's values, separated by commas. */
  lemma {:induction false} ValuesScan(run: Lex.Lexer -> Lex.Tokens, input: string, q: nat, values: seq<string>)
    requires CommaRule(run, input) && ParamValueRule(run, input)
    requires |values| >= 1 && Lays(input, q, ValuesText(values)) && SafeRuns(values)
    requires q + |ValuesText(values)| < |input| && EndsValue(input[q + |ValuesText(values)|])
    ensures Follows(run(Start(input, q, Lex.LexParamValue)), ValueTokens(values),
                    run(Start(input, q + |ValuesText(values)|, Lex.LexContentLine)))
  {
    var v := values[0];
    var rest := MoreValuesText(values[1..]);
    LaysSplit(input, q, v, rest);
    var q1 := q + |v|;
    if |values| > 1 {
      LaysChar(input, q1, rest, 0);
    }
    assert SafeRuns(values[1..]) by {
      assert forall j :: 0 <= j < |values[1..]| ==> values[1..][j] == values[j + 1];
    }
    assert ParamValueLaid(input, q, v);
    MoreValuesScan(run, input, q1, values[1..]);
    FollowsChain(run(Start(input, q, Lex.LexParamValue)), [Token(ItemParamValue, v)],
                 run(Start(input, q1, Lex.LexContentLine)), MoreValueTokens(values[1..]),
                 run(Start(input, q + |ValuesText(values)|, Lex.LexContentLine)));
  }

  /** The first entry's text, then the others'. */
  lemma {:induction false} ParamsTextCons(entries: seq<ParamEntry>)
    requires Writable(entries) && |entries| >= 1
    ensures Writable(entries[1..]) && |entries[0].1| >= 1
    ensures NameRun(entries[0].0) && SafeRuns(entries[0].1)
    ensures ParamsText(entries) == ";" + entries[0].0 + "=" + ValuesText(entries[0].1) + ParamsText(entries[1..])
  {
    assert forall i :: 0 <= i < |entries[1..]| ==> entries[1..][i] == entries[i + 1];
  }

  /** `;name=` as laid in the input. */
  lemma {:induction false} ParamHeadParts(input: string, q: nat, name: string, vs: string)
    requires Lays(input, q, ";" + name + "=" + vs)
    ensures PunctLaid(input, q, ';') && Lays(input, q + 1, name) && input[q + 1 + |name|] == '='
    ensures Lays(input, q + |name| + 2, vs)
  {
    LaysSplit(input, q, ";" + name + "=", vs);
    LaysSplit(input, q, ";" + name, "=");
    LaysSplit(input, q, ";", name);
    LaysChar(input, q, ";", 0);
    LaysChar(input, q + 1 + |name|, "=", 0);
  }

  /** One parameter: `;`, its name, `=` and its values. */
  lemma {:induction false} ParamScan(run: Lex.Lexer -> Lex.Tokens, input: string, q: nat, entry: ParamEntry, q3: nat)
    requires ParamRules(run, input) && |entry.1| >= 1 && NameRun(entry.0) && SafeRuns(entry.1)
    requires Lays(input, q, ";" + entry.0 + "=" + ValuesText(entry.1))
    requires q3 == q + |";" + entry.0 + "=" + ValuesText(entry.1)| && q3 < |input| && EndsValue(input[q3])
    ensures Follows(run(Start(input, q, Lex.LexContentLine)),
                    [Token(ItemSemiColon, ";"), Token(ItemParamName, entry.0), Token(ItemEqual, "=")] + ValueTokens(entry.1),
                    run(Start(input, q3, Lex.LexContentLine)))
  {
    var name := entry.0;
    var q2 := q + |name| + 2;
    ParamHeadParts(input, q, name, ValuesText(entry.1));
    assert ParamNameLaid(input, q + 1, name);
    ValuesScan(run, input, q2, entry.1);
    var t0 := run(Start(input, q, Lex.LexContentLine));
    var t2 := run(Start(input, q2, Lex.LexParamValue));
    var head := [Token(ItemSemiColon, ";"), Token(ItemParamName, name), Token(ItemEqual, "=")];
    FollowsChain(t0, [Token(ItemSemiColon, ";")], run(Start(input, q + 1, Lex.LexParamName)),
                 [Token(ItemParamName, name), Token(ItemEqual, "=")], t2);
    assert [Token(ItemSemiColon, ";")] + [Token(ItemParamName, name), Token(ItemEqual, "=")] == head;
    FollowsChain(t0, head, t2, ValueTokens(entry.1), run(Start(input, q3, Lex.LexContentLine)));
  }

  /** The first parameter and the rest, as laid in the input. */
  lemma {:induction false} ParamsParts(input: string, q: nat, entries: seq<ParamEntry>)
    requires Writable(entries) && |entries| >= 1 && Lays(input, q, ParamsText(entries))
    requires q + |ParamsText(entries)| < |input| && input[q + |ParamsText(entries)|] == ':'
    ensures |entries[0].1| >= 1 && NameRun(entries[0].0) && SafeRuns(entries[0].1) && Writable(entries[1..])
    ensures var head := ";" + entries[0].0 + "=" + ValuesText(entries[0].1);
      && Lays(input, q, head) && Lays(input, q + |head|, ParamsText(entries[1..]))
      && q + |head| < |input| && EndsValue(input[q + |head|])
      && q + |head| + |ParamsText(entries[1..])| == q + |ParamsText(entries)|
    ensures ParamTokens(entries) ==
              [Token(ItemSemiColon, ";"), Token(ItemParamName, entries[0].0), Token(ItemEqual, "=")]
              + ValueTokens(entries[0].1) + ParamTokens(entries[1..])
  {
    ParamsTextCons(entries);
    ParamTokensCons(entries);
    var head := ";" + entries[0].0 + "=" + ValuesText(entries[0].1);
    var rest := ParamsText(entries[1..]);
    LaysSplit(input, q, head, rest);
    ParamsTextStart(entries[1..]);
    EndsBefore(input, q + |head|, rest);
  }

  lemma {:induction false} ParamsTextStart(entries: seq<ParamEntry>)
    requires Writable(entries)
    ensures |ParamsText(entries)| == 0 || ParamsText(entries)[0] == ';'
  {
    if |entries| > 0 {
      ParamsTextCons(entries);
    }
  }

  /** Parameters, then ':': the first character ends a parameter value. */
  lemma {:induction false} EndsBefore(input: string, e: nat, rest: string)
    requires Lays(input, e, rest) && e + |rest| < |input| && input[e + |rest|] == ':'
    requires |rest| == 0 || rest[0] == ';'
    ensures e < |input| && EndsValue(input[e])
  {
    if |rest| > 0 {
      LaysChar(input, e, rest, 0);
    }
  }

  /** Every parameter, in order, up to the ':' before the value. */
  lemma {:induction false} ParamsScan(run: Lex.Lexer -> Lex.Tokens, input: string, q: nat, entries: seq<ParamEntry>)
    requires ParamRules(run, input) && Writable(entries) && Lays(input, q, ParamsText(entries))
    requires q + |ParamsText(entries)| < |input| && input[q + |ParamsText(entries)|] == ':'
    ensures Follows(run(Start(input, q, Lex.LexContentLine)), ParamTokens(entries),
                    run(Start(input, q + |ParamsText(entries)|, Lex.LexContentLine)))
    decreases |entries|
  {
    if |entries| == 0 {
      FollowsNone(run(Start(input, q, Lex.LexContentLine)));
    } else {
      ParamsParts(input, q, entries);
      var q3 := q + |";" + entries[0].0 + "=" + ValuesText(entries[0].1)|;
      ParamScan(run, input, q, entries[0], q3);
      ParamsScan(run, input, q3, entries[1..]);
      FollowsChain(run(Start(input, q, Lex.LexContentLine)),
                   [Token(ItemSemiColon, ";"), Token(ItemParamName, entries[0].0), Token(ItemEqual, "=")] + ValueTokens(entries[0].1),
                   run(Start(input, q3, Lex.LexContentLine)), ParamTokens(entries[1..]),
                   run(Start(input, q + |ParamsText(entries)|, Lex.LexContentLine)));
    }
  }

  lemma KeywordHasNoCr(b: bool, c: Component, i: nat)
    requires i < |KeywordText(b, c)|
    ensures KeywordText(b, c)[i] != '\r'
  {
    var kw := KeywordText(b, c);
    var head := if b then "BEGIN:" else "END:";
    assert kw == head + ComponentName(c);
    if i >= |head| {
      assert kw[i] == ComponentName(c)[i - |head|];
    }
  }

  /** A line that does not start with a delimiter keyword leaves none at
      its start in the input either: a keyword has no CR in it, so it
      cannot run past the line's CRLF. */
  lemma NoKeywordInLine(input: string, p: nat, text: string)
    requires Lays(input, p, text) && |text| >= 2 && text[|text| - 2] == '\r'
    requires forall b, c :: !HasPrefix(text, KeywordText(b, c))
    ensures NoKeywordAt(input, p)
  {
    forall b, c ensures !HasPrefix(input[p..], KeywordText(b, c)) {
      var kw := KeywordText(b, c);
      if |kw| <= |text| {
        assert input[p..][..|kw|] == text[..|kw|];
      } else {
        LaysChar(input, p, text, |text| - 2);
        KeywordHasNoCr(b, c, |text| - 2);
        assert input[p..][|text| - 2] == '\r';
      }
    }
  }

  /** `head:value` and CRLF, as laid in the input. */
  lemma {:induction false} LaysLine(input: string, p: nat, head: string, value: string)
    requires Lays(input, p, head + ":" + value + "\r\n")
    ensures Lays(input, p, head) && input[p + |head|] == ':' && Lays(input, p + |head| + 1, value)
    ensures CrlfLaid(input, p + |head| + 1 + |value|)
  {
    var c := p + |head|;
    LaysSplit(input, p, head + ":" + value, "\r\n");
    LaysChar(input, c + 1 + |value|, "\r\n", 0);
    LaysChar(input, c + 1 + |value|, "\r\n", 1);
    LaysSplit(input, p, head + ":", value);
    LaysSplit(input, p, head, ":");
    LaysChar(input, c, ":", 0);
  }

  /** The pieces of a line's text, with their offsets. */
  lemma {:induction false} LineTextParts(input: string, p: nat, name: string, entries: seq<ParamEntry>, value: string)
    requires HaveValues(entries) && Lays(input, p, LineText(name, entries, value))
    ensures var c := p + |name| + |ParamsText(entries)|;
      && Lays(input, p, name) && Lays(input, p + |name|, ParamsText(entries))
      && input[c] == ':' && Lays(input, c + 1, value)
      && CrlfLaid(input, c + 1 + |value|)
      && p + |LineText(name, entries, value)| == c + 3 + |value|
  {
    var ps := ParamsText(entries);
    LaysLine(input, p, name + ps, value);
    LaysSplit(input, p, name, ps);
  }

  /** The name and the parameters, up to the ':'. */
  lemma {:induction false} HeadScan(run: Lex.Lexer -> Lex.Tokens, input: string, p: nat, name: string, entries: seq<ParamEntry>, c: nat)
    requires NameRule(run, input) && ParamRules(run, input) && NameRun(name) && Writable(entries)
    requires Lays(input, p, name) && Lays(input, p + |name|, ParamsText(entries)) && NoKeywordAt(input, p)
    requires c == p + |name| + |ParamsText(entries)| && c < |input| && input[c] == ':'
    ensures Follows(run(Start(input, p, Lex.LexName)), [Token(ItemName, name)] + ParamTokens(entries),
                    run(Start(input, c, Lex.LexContentLine)))
  {
    var q := p + |name|;
    var ps := ParamsText(entries);
    if |ps| > 0 {
      ParamsTextCons(entries);
      LaysChar(input, q, ps, 0);
    }
    assert NameLaid(input, p, name);
    ParamsScan(run, input, q, entries);
    FollowsChain(run(Start(input, p, Lex.LexName)), [Token(ItemName, name)], run(Start(input, q, Lex.LexContentLine)),
                 ParamTokens(entries), run(Start(input, c, Lex.LexContentLine)));
  }

  /** ':', the value and the line end. */
  lemma {:induction false} TailScan(run: Lex.Lexer -> Lex.Tokens, input: string, c: nat, value: string)
    requires ColonRule(run, input) && ValueRule(run, input) && LineEndRule(run, input) && ValueRun(value)
    requires c < |input| && input[c] == ':' && Lays(input, c + 1, value) && CrlfLaid(input, c + 1 + |value|)
    ensures Follows(run(Start(input, c, Lex.LexContentLine)),
                    [Token(ItemColon, ":"), Token(ItemValue, value), Token(ItemLineEnd, "\r\n")],
                    AfterLine(run, input, c + 3 + |value|))
  {
    var n := c + 1 + |value|;
    assert PunctLaid(input, c, ':');
    assert ValueLaid(input, c + 1, value);
    assert CrlfLaid(input, n);
    var tc := run(Start(input, c, Lex.LexContentLine));
    var tn := run(Start(input, n, Lex.LexNewLine));
    FollowsChain(tc, [Token(ItemColon, ":")], run(Start(input, c + 1, Lex.LexValue)), [Token(ItemValue, value)], tn);
    FollowsChain(tc, [Token(ItemColon, ":"), Token(ItemValue, value)], tn,
                 [Token(ItemLineEnd, "\r\n")], AfterLine(run, input, n + 2));
  }

  /** A property line scans into the tokens of the line, then what follows it. */
  lemma {:induction false} LineScan(run: Lex.Lexer -> Lex.Tokens, input: string, p: nat,
                 name: string, entries: seq<ParamEntry>, value: string)
    requires Scans(run, input) && PropertyText(name, entries, value) && Lays(input, p, LineText(name, entries, value))
    ensures p + |LineText(name, entries, value)| <= |input|
    ensures Follows(run(Start(input, p, Lex.LexName)), LineTokens(name, entries, value),
                    AfterLine(run, input, p + |LineText(name, entries, value)|))
  {
    var c := p + |name| + |ParamsText(entries)|;
    LineTextParts(input, p, name, entries, value);
    NoKeywordInLine(input, p, LineText(name, entries, value));
    HeadScan(run, input, p, name, entries, c);
    TailScan(run, input, c, value);
    FollowsChain(run(Start(input, p, Lex.LexName)), [Token(ItemName, name)] + ParamTokens(entries),
                 run(Start(input, c, Lex.LexContentLine)),
                 [Token(ItemColon, ":"), Token(ItemValue, value), Token(ItemLineEnd, "\r\n")],
                 AfterLine(run, input, c + 3 + |value|));
  }

  /* ---------- the scanner itself ---------- */

  lemma NamesScanned(input: string)
    ensures NameRule(RunOf, input)
  {
    forall q: nat, name: string | NameLaid(input, q, name)
      ensures Follows(RunOf(Start(input, q, Lex.LexName)), [Token(ItemName, name)],
                      RunOf(Start(input, q + |name|, Lex.LexContentLine)))
    {
      NameStep(input, q, name);
      StepFollows(Start(input, q, Lex.LexName), [Token(ItemName, name)]);
    }
  }

  lemma PunctuationScanned(input: string)
    ensures SemiColonRule(RunOf, input) && CommaRule(RunOf, input) && ColonRule(RunOf, input)
  {
    forall q: nat | PunctLaid(input, q, ';')
      ensures Follows(RunOf(Start(input, q, Lex.LexContentLine)), [Token(ItemSemiColon, ";")],
                      RunOf(Start(input, q + 1, Lex.LexParamName)))
    {
      PunctStep(input, q);
      StepFollows(Start(input, q, Lex.LexContentLine), [Token(ItemSemiColon, ";")]);
    }
    forall q: nat | PunctLaid(input, q, ',')
      ensures Follows(RunOf(Start(input, q, Lex.LexContentLine)), [Token(ItemComma, ",")],
                      RunOf(Start(input, q + 1, Lex.LexParamValue)))
    {
      PunctStep(input, q);
      StepFollows(Start(input, q, Lex.LexContentLine), [Token(ItemComma, ",")]);
    }
    forall q: nat | PunctLaid(input, q, ':')
      ensures Follows(RunOf(Start(input, q, Lex.LexContentLine)), [Token(ItemColon, ":")],
                      RunOf(Start(input, q + 1, Lex.LexValue)))
    {
      PunctStep(input, q);
      StepFollows(Start(input, q, Lex.LexContentLine), [Token(ItemColon, ":")]);
    }
  }

  lemma ParamNamesScanned(input: string)
    ensures ParamNameRule(RunOf, input)
  {
    forall q: nat, name: string | ParamNameLaid(input, q, name)
      ensures Follows(RunOf(Start(input, q, Lex.LexParamName)), [Token(ItemParamName, name), Token(ItemEqual, "=")],
                      RunOf(Start(input, q + |name| + 1, Lex.LexParamValue)))
    {
      ParamNameStep(input, q, name);
      StepFollows(Start(input, q, Lex.LexParamName), [Token(ItemParamName, name), Token(ItemEqual, "=")]);
    }
  }

  lemma ParamValuesScanned(input: string)
    ensures ParamValueRule(RunOf, input)
  {
    forall q: nat, v: string | ParamValueLaid(input, q, v)
      ensures Follows(RunOf(Start(input, q, Lex.LexParamValue)), [Token(ItemParamValue, v)],
                      RunOf(Start(input, q + |v|, Lex.LexContentLine)))
    {
      ParamValueStep(input, q, v);
      StepFollows(Start(input, q, Lex.LexParamValue), [Token(ItemParamValue, v)]);
    }
  }

  lemma ValuesScanned(input: string)
    ensures ValueRule(RunOf, input)
  {
    forall q: nat, value: string | ValueLaid(input, q, value)
      ensures Follows(RunOf(Start(input, q, Lex.LexValue)), [Token(ItemValue, value)],
                      RunOf(Start(input, q + |value|, Lex.LexNewLine)))
    {
      ValueStep(input, q, value);
      StepFollows(Start(input, q, Lex.LexValue), [Token(ItemValue, value)]);
    }
  }

  lemma LineEndsScanned(input: string)
    ensures LineEndRule(RunOf, input)
  {
    forall q: nat | CrlfLaid(input, q)
      ensures Follows(RunOf(Start(input, q, Lex.LexNewLine)), [Token(ItemLineEnd, "\r\n")], AfterLine(RunOf, input, q + 2))
    {
      var l := Start(input, q, Lex.LexNewLine);
      CrlfStep(input, q);
      if q + 2 < |input| {
        StepFollows(l, [Token(ItemLineEnd, "\r\n")]);
      } else {
        assert Lex.Run(l) == Lex.Tokens([Item(ItemLineEnd, q, "\r\n"), Item(ItemEOF, q + 2, "")], Lex.Closed);
        assert Lex.Run(l).items[1..] == [Item(ItemEOF, q + 2, "")];
      }
    }
  }

  /** The scanner behaves on each piece of a line as the single steps say. */
  lemma ScannerScans(input: string)
    ensures Scans(RunOf, input)
  {
    NamesScanned(input);
    PunctuationScanned(input);
    ParamNamesScanned(input);
    ParamValuesScanned(input);
    ValuesScanned(input);
    LineEndsScanned(input);
  }

  /** A property line's text scans into exactly the tokens of the line:
      the name, the parameters in order, ':', the value and the line end.
      After them come EOF when the input ends there, and otherwise exactly
      what scanning the next line emits. */
  lemma LineLexed(input: string, p: nat, name: string, entries: seq<ParamEntry>, value: string)
    requires PropertyText(name, entries, value) && Lays(input, p, LineText(name, entries, value))
    ensures p + |LineText(name, entries, value)| <= |input|
    ensures Follows(RunOf(Start(input, p, Lex.LexName)), LineTokens(name, entries, value),
                    AfterLine(RunOf, input, p + |LineText(name, entries, value)|))
  {
    ScannerScans(input);
    LineScan(RunOf, input, p, name, entries, value);
  }

  /* ---------- and reading it back ---------- */

  /** What the parser reads from `at` on is what the scan `t` emits. */
  predicate Receives(tokens: Lex.Tokens, at: nat, t: Lex.Tokens)
  {
    at + |t.items| <= |tokens.items| && tokens.items[at..at + |t.items|] == t.items
  }

  lemma {:induction false} SameTextSpelled(items: seq<Item>, at: nat, xs: seq<Item>, ts: seq<Item>)
    requires at + |xs| <= |items| && items[at..at + |xs|] == xs && SameText(xs, ts)
    ensures Spelled(items, at, ts)
    decreases |ts|
  {
    if |ts| > 0 {
      assert items[at] == xs[0];
      assert items[at + 1..at + |xs|] == xs[1..];
      SameTextSpelled(items, at + 1, xs[1..], ts[1..]);
    }
  }

  /** Tokens received from a scan that spells `ts` first spell `ts`. */
  lemma ReceivedSpelled(tokens: Lex.Tokens, at: nat, t: Lex.Tokens, ts: seq<Item>, t2: Lex.Tokens)
    requires Receives(tokens, at, t) && Follows(t, ts, t2)
    ensures Spelled(tokens.items, at, ts)
  {
    var xs := t.items[..|ts|];
    assert tokens.items[at..at + |xs|] == tokens.items[at..at + |t.items|][..|xs|];
    SameTextSpelled(tokens.items, at, xs, ts);
  }

  /** The text of a property line, scanned and parsed in any scope, adds
      exactly the property it spells to the component of that scope: the
      scanner and the parser together read the line back. */
  lemma TextLineRead(input: string, q: nat, name: string, entries: seq<ParamEntry>, value: string,
                     p: Parser, tokens: Lex.Tokens, zone: Zone, lib: TimeLib)
    requires PropertyText(name, entries, value) && Lays(input, q, LineText(name, entries, value))
    requires ParserOk(p, tokens) && !p.peeked && Receives(tokens, p.pos, RunOf(Start(input, q, Lex.LexName)))
    ensures p.pos + |LineTokens(name, entries, value)| <= |tokens.items|
    ensures WellFormed(Property(name, ParamMap(entries), value))
    ensures ScanContentLine(p, tokens, zone, lib) ==
              Ok(Proceed, After(tokens, p.pos + |LineTokens(name, entries, value)|,
                                AddProperty(p.m, Property(name, ParamMap(entries), value))))
  {
    LineLexed(input, q, name, entries, value);
    ReceivedSpelled(tokens, p.pos, RunOf(Start(input, q, Lex.LexName)), LineTokens(name, entries, value),
                    AfterLine(RunOf, input, q + |LineText(name, entries, value)|));
    ContentLineRead(p, tokens, zone, lib, name, entries, value);
  }

  /** lexName tests the delimiter keywords before anything else, and as
      bare prefixes: wherever a keyword starts a line, the line's first token
      is that delimiter, and scanning resumes in lexNewLine right after it. */
  lemma DelimiterWins(input: string, q: nat, b: bool, c: Component)
    requires q <= |input| && HasPrefix(input[q..], KeywordText(b, c))
    ensures Lex.Step(Start(input, q, Lex.LexName)) ==
              Lex.Continue([Item(ItemDelim(b, c), q, KeywordText(b, c))],
                           Start(input, q + |KeywordText(b, c)|, Lex.LexNewLine))
  {
    var l := Start(input, q, Lex.LexName);
    KeywordFound(input, q, b, c);
    var r := Lex.LexDelimiter(l, b, c);
    assert Lex.Step(l) == r;
    assert r.items == [r.items[0]];
  }

  lemma KeywordFound(input: string, q: nat, b: bool, c: Component)
    requires q <= |input| && HasPrefix(input[q..], KeywordText(b, c))
    ensures Lex.KeywordAt(input, q) == Some((b, c))
  {
  }

  /** So text that starts with a keyword and goes on with a one-byte
      character other than CR is not read as a property: it scans as the
      delimiter, then an error token for the missing CRLF, then a line end
      made of the next two bytes. */
  lemma KeywordPrefixWins(input: string, b: bool, c: Component)
    requires HasPrefix(input, KeywordText(b, c)) && |KeywordText(b, c)| + 2 < |input|
    requires input[|KeywordText(b, c)|] != '\r' && RuneOf(input[|KeywordText(b, c)|]) < 0x80
    ensures var t := Lex.Lex(input); var k := |KeywordText(b, c)|;
      && |t.items| >= 3 && t.items[0] == Item(ItemDelim(b, c), 0, KeywordText(b, c))
      && t.items[1] == Item(ItemError, k, Lex.MissingCrlf) && t.items[2].typ == ItemLineEnd
  {
    var k := |KeywordText(b, c)|;
    var l := Lex.Initial(input);
    assert input[0..] == input;
    DelimiterWins(input, 0, b, c);
    StepFollows(l, [Item(ItemDelim(b, c), 0, KeywordText(b, c))]);
    var l1 := Start(input, k, Lex.LexNewLine);
    MissingCrlfStep(input, k);
    StepFollows(l1, Lex.Step(l1).items);
  }

  /** `BEGIN:VEVENTS` is the delimiter `BEGIN:VEVENT` and an error. */
  lemma VEventsIsNoProperty()
    ensures var t := Lex.Lex("BEGIN:VEVENTS\r\n");
      && |t.items| >= 3 && t.items[0] == Item(ItemDelim(true, VEvent), 0, "BEGIN:VEVENT")
      && t.items[1] == Item(ItemError, 12, Lex.MissingCrlf) && t.items[2].typ == ItemLineEnd
  {
    var input := "BEGIN:VEVENTS\r\n";
    assert KeywordText(true, VEvent) == "BEGIN:VEVENT";
    assert input[..12] == "BEGIN:VEVENT";
    assert input[12] == 'S';
    KeywordPrefixWins(input, true, VEvent);
  }

  /** lexNewLine where the line does not end in CRLF, before a one-byte
      character: an error token, then the two bytes skipped as if they were
      the line end, and the scan goes on with the next line. */
  lemma MissingCrlfStep(input: string, q: nat)
    requires q + 2 < |input| && input[q] != '\r' && RuneOf(input[q]) < 0x80
    ensures var r := Lex.Step(Start(input, q, Lex.LexNewLine));
      && r.Continue? && |r.items| == 2 && r.items[0] == Item(ItemError, q, Lex.MissingCrlf)
      && r.items[1].typ == ItemLineEnd && r.next == Start(input, q + 2, Lex.LexName)
  {
    var l := Start(input, q, Lex.LexNewLine);
    assert !HasPrefix(input[q..], "\r\n") by {
      assert input[q..][0] == input[q];
    }
    assert Lex.CrlfSkip(input, q) == 2;
    Lex.BytesBelowTwo(input[q..]);
    assert Lex.Step(l) == Lex.LexNewLineStep(l);
  }
}
