/** The recursive-descent parser (parse.go:26-391): content lines
    (section 3.1 of RFC 5545) with their parameters, the BEGIN:/END:
    delimiters that move between component scopes, and the validation that
    runs at BEGIN:VEVENT, END:VEVENT and END:VALARM. */
module Parsing {
  import opened Util
  import opened Time
  import opened ICalendar
  import opened Items
  import opened Validate
  import opened ParserState
  import opened Scopes
  import Lex
  import Unfolding

  /* ---------- parameters ---------- */

  /** One parameter as written: its name and its values in order. */
  type ParamEntry = (string, seq<string>)

  /** The loop of `scanValues` after the first value: further values, each
      after a comma. The token after the last value is pushed back. */
  function ScanMoreValues(p: Parser, tokens: Lex.Tokens): (r: Res<seq<string>>)
    requires p.pos <= |tokens.items| && !p.peeked && TokenOk(p, tokens)
    ensures r.Ok? ==> SameModel(p, r.p) && r.p.peeked && r.p.pos <= |tokens.items| && TokenOk(r.p, tokens)
    ensures r.Ok? ==> Measure(r.p, tokens) <= Measure(p, tokens) + 1
    ensures r.Ok? ==> Clean(tokens, Consumed(p), Consumed(r.p))
    ensures r.Ok? && r.p.token.typ != ItemError ==> Consumed(p) <= Consumed(r.p)
    ensures r.Fail? && r.failure.Unexpected? ==> r.failure.expected == ParamValueToken
    ensures r.Fail? ==> r.received <= |tokens.items| && Clean(tokens, Consumed(p), r.received - 1)
    decreases Measure(p, tokens), 1
  {
    match Next(p, tokens)
    case Stuck(f) => Fail(f, |tokens.items|)
    case Got(item, q) =>
      if item.typ != ItemComma then
        CleanEmpty(tokens, Consumed(p), Consumed(Backup(q)));
        Ok([], Backup(q))
      else
        var r := MoreValuesAfterComma(q, tokens);
        CleanRead(p, tokens, if r.Ok? then Consumed(r.p) else r.received - 1);
        r
  }

  /** A value after a comma, then the rest of the values. */
  function MoreValuesAfterComma(p: Parser, tokens: Lex.Tokens): (r: Res<seq<string>>)
    requires p.pos <= |tokens.items| && !p.peeked && TokenOk(p, tokens)
    ensures r.Ok? ==> SameModel(p, r.p) && r.p.peeked && r.p.pos <= |tokens.items| && TokenOk(r.p, tokens)
    ensures r.Ok? ==> Measure(r.p, tokens) <= Measure(p, tokens)
    ensures r.Ok? ==> Clean(tokens, Consumed(p), Consumed(r.p))
    ensures r.Ok? && r.p.token.typ != ItemError ==> Consumed(p) <= Consumed(r.p)
    ensures r.Fail? && r.failure.Unexpected? ==> r.failure.expected == ParamValueToken
    ensures r.Fail? ==> r.received <= |tokens.items| && Clean(tokens, Consumed(p), r.received - 1)
    decreases Measure(p, tokens), 0
  {
    match Expect(p, tokens, ItemParamValue, ParamValueToken)
    case Fail(f, n) => Fail(f, n)
    case Ok(value, q) =>
      var r := ScanMoreValues(q, tokens);
      CleanRead(p, tokens, if r.Ok? then Consumed(r.p) else r.received - 1);
      if r.Ok? then Ok([value.val] + r.value, r.p) else r
  }

  /** `scanValues`: at least one parameter value, separated by commas. */
  function ScanValues(p: Parser, tokens: Lex.Tokens): (r: Res<seq<string>>)
    requires p.pos <= |tokens.items| && !p.peeked && TokenOk(p, tokens)
    ensures r.Ok? ==> SameModel(p, r.p) && r.p.peeked && r.p.pos <= |tokens.items| && TokenOk(r.p, tokens)
    ensures r.Ok? ==> Measure(r.p, tokens) < Measure(p, tokens) && |r.value| >= 1
    ensures r.Ok? ==> Clean(tokens, Consumed(p), Consumed(r.p))
    ensures r.Ok? && r.p.token.typ != ItemError ==> Consumed(p) <= Consumed(r.p)
    ensures r.Fail? && r.failure.Unexpected? ==> r.failure.expected == ParamValueToken
    ensures r.Fail? ==> r.received <= |tokens.items| && Clean(tokens, Consumed(p), r.received - 1)
  {
    match Expect(p, tokens, ItemParamValue, ParamValueToken)
    case Fail(f, n) => Fail(f, n)
    case Ok(first, q) =>
      var r := ScanMoreValues(q, tokens);
      CleanRead(p, tokens, if r.Ok? then Consumed(r.p) else r.received - 1);
      if r.Ok? then Ok([first.val] + r.value, r.p) else r
  }

  /** One parameter after its semicolon: a parameter name, `=`, values. */
  function ScanParam(p: Parser, tokens: Lex.Tokens): (r: Res<ParamEntry>)
    requires p.pos <= |tokens.items| && !p.peeked && TokenOk(p, tokens)
    ensures r.Ok? ==> SameModel(p, r.p) && r.p.peeked && r.p.pos <= |tokens.items| && TokenOk(r.p, tokens)
    ensures r.Ok? ==> Measure(r.p, tokens) < Measure(p, tokens) && |r.value.1| >= 1
    ensures r.Ok? ==> Clean(tokens, Consumed(p), Consumed(r.p))
    ensures r.Ok? && r.p.token.typ != ItemError ==> Consumed(p) <= Consumed(r.p)
    ensures r.Fail? && r.failure.Unexpected? ==> r.failure.expected in {ParamNameToken, EqualToken, ParamValueToken}
    ensures r.Fail? ==> r.received <= |tokens.items| && Clean(tokens, Consumed(p), r.received - 1)
  {
    match Expect(p, tokens, ItemParamName, ParamNameToken)
    case Fail(f, n) => Fail(f, n)
    case Ok(name, q1) =>
      var r := ValuesAfterName(q1, tokens);
      CleanRead(p, tokens, if r.Ok? then Consumed(r.p) else r.received - 1);
      if r.Ok? then Ok((name.val, r.value), r.p) else Fail(r.failure, r.received)
  }

  /** The `=` and the values after a parameter name. */
  function ValuesAfterName(p: Parser, tokens: Lex.Tokens): (r: Res<seq<string>>)
    requires p.pos <= |tokens.items| && !p.peeked && TokenOk(p, tokens)
    ensures r.Ok? ==> SameModel(p, r.p) && r.p.peeked && r.p.pos <= |tokens.items| && TokenOk(r.p, tokens)
    ensures r.Ok? ==> Measure(r.p, tokens) < Measure(p, tokens) && |r.value| >= 1
    ensures r.Ok? ==> Clean(tokens, Consumed(p), Consumed(r.p))
    ensures r.Ok? && r.p.token.typ != ItemError ==> Consumed(p) <= Consumed(r.p)
    ensures r.Fail? && r.failure.Unexpected? ==> r.failure.expected in {EqualToken, ParamValueToken}
    ensures r.Fail? ==> r.received <= |tokens.items| && Clean(tokens, Consumed(p), r.received - 1)
  {
    match Expect(p, tokens, ItemEqual, EqualToken)
    case Fail(f, n) => Fail(f, n)
    case Ok(_, q) =>
      var r := ScanValues(q, tokens);
      CleanRead(p, tokens, if r.Ok? then Consumed(r.p) else r.received - 1);
      r
  }

  /** `scanParams`: any number of `;name=values`, in order. The token after
      the last parameter is pushed back. */
  function ScanParams(p: Parser, tokens: Lex.Tokens): (r: Res<seq<ParamEntry>>)
    requires p.pos <= |tokens.items| && TokenOk(p, tokens)
    ensures r.Ok? ==> SameModel(p, r.p) && r.p.peeked && r.p.pos <= |tokens.items| && TokenOk(r.p, tokens)
    ensures r.Ok? ==> Measure(r.p, tokens) <= Measure(p, tokens) + 1
    ensures r.Ok? ==> HaveValues(r.value)
    ensures r.Ok? ==> Clean(tokens, Consumed(p), Consumed(r.p))
    ensures r.Ok? && r.p.token.typ != ItemError ==> Consumed(p) <= Consumed(r.p)
    ensures r.Fail? && r.failure.Unexpected? ==> r.failure.expected in {ParamNameToken, EqualToken, ParamValueToken}
    ensures r.Fail? ==> r.received <= |tokens.items| && Clean(tokens, Consumed(p), r.received - 1)
    decreases Measure(p, tokens), 1
  {
    match Next(p, tokens)
    case Stuck(f) => Fail(f, |tokens.items|)
    case Got(item, q) =>
      if item.typ != ItemSemiColon then
        CleanEmpty(tokens, Consumed(p), Consumed(Backup(q)));
        Ok([], Backup(q))
      else
        var r := ParamsAfterSemicolon(q, tokens);
        CleanRead(p, tokens, if r.Ok? then Consumed(r.p) else r.received - 1);
        r
  }

  /** The parameter after a semicolon, then the rest of the parameters. */
  function ParamsAfterSemicolon(p: Parser, tokens: Lex.Tokens): (r: Res<seq<ParamEntry>>)
    requires p.pos <= |tokens.items| && !p.peeked && TokenOk(p, tokens)
    ensures r.Ok? ==> SameModel(p, r.p) && r.p.peeked && r.p.pos <= |tokens.items| && TokenOk(r.p, tokens)
    ensures r.Ok? ==> Measure(r.p, tokens) <= Measure(p, tokens)
    ensures r.Ok? ==> HaveValues(r.value) && |r.value| >= 1
    ensures r.Ok? ==> Clean(tokens, Consumed(p), Consumed(r.p))
    ensures r.Ok? && r.p.token.typ != ItemError ==> Consumed(p) <= Consumed(r.p)
    ensures r.Fail? && r.failure.Unexpected? ==> r.failure.expected in {ParamNameToken, EqualToken, ParamValueToken}
    ensures r.Fail? ==> r.received <= |tokens.items| && Clean(tokens, Consumed(p), r.received - 1)
    decreases Measure(p, tokens), 0
  {
    match ScanParam(p, tokens)
    case Fail(f, n) => Fail(f, n)
    case Ok(entry, q) =>
      var r := ScanParams(q, tokens);
      CleanJoin(tokens, Consumed(p), Consumed(q), if r.Ok? then Consumed(r.p) else r.received - 1);
      if r.Ok? then HaveValuesCons(entry, r.value); Ok([entry] + r.value, r.p) else r
  }

  /** Every entry has at least one value. */
  predicate HaveValues(entries: seq<ParamEntry>)
  {
    forall i :: 0 <= i < |entries| ==> |entries[i].1| >= 1
  }

  lemma HaveValuesCons(entry: ParamEntry, rest: seq<ParamEntry>)
    requires |entry.1| >= 1 && HaveValues(rest)
    ensures HaveValues([entry] + rest)
  {
    assert forall i :: 0 < i < |[entry] + rest| ==> ([entry] + rest)[i] == rest[i - 1];
  }

  /** The parameter map `scanParams` fills: entries in order, a later entry
      of the same name replacing an earlier one. */
  function ParamMap(entries: seq<ParamEntry>): (m: map<string, Param>)
    ensures forall k :: k in m <==> exists i :: 0 <= i < |entries| && entries[i].0 == k
    decreases |entries|
  {
    if |entries| == 0 then map[]
    else
      var last := entries[|entries| - 1];
      var m := ParamMap(entries[..|entries| - 1]);
      assert forall i :: 0 <= i < |entries| - 1 ==> entries[..|entries| - 1][i] == entries[i];
      m[last.0 := Param(last.1)]
  }

  /** The value a name maps to is that of its last entry. */
  lemma {:induction false} ParamMapLastWins(entries: seq<ParamEntry>, j: nat)
    requires j < |entries|
    requires forall i :: j < i < |entries| ==> entries[i].0 != entries[j].0
    ensures entries[j].0 in ParamMap(entries) && ParamMap(entries)[entries[j].0] == Param(entries[j].1)
    decreases |entries|
  {
    if j < |entries| - 1 {
      var init := entries[..|entries| - 1];
      assert forall i :: j < i < |init| ==> init[i] == entries[i];
      ParamMapLastWins(init, j);
    }
  }

  /** A property built from well-formed entries is well formed. */
  lemma {:induction false} ParamMapWellFormed(entries: seq<ParamEntry>)
    requires HaveValues(entries)
    ensures forall k :: k in ParamMap(entries) ==> |ParamMap(entries)[k].values| >= 1
    decreases |entries|
  {
    if |entries| > 0 {
      var init := entries[..|entries| - 1];
      assert forall i :: 0 <= i < |init| ==> init[i] == entries[i];
      ParamMapWellFormed(init);
    }
  }

  /* ---------- content lines ---------- */

  /** The tokens before `end` are `:`, a value token holding `value`, and
      a line end. */
  predicate EndsLine(tokens: Lex.Tokens, end: int, value: string)
  {
    && 3 <= end <= |tokens.items|
    && tokens.items[end - 3].typ == ItemColon
    && tokens.items[end - 2].typ == ItemValue && tokens.items[end - 2].val == value
    && tokens.items[end - 1].typ == ItemLineEnd
  }

  /** The value and the CRLF after the `:` of a property line. A missing
      CRLF is reported with the name token, not with the token found. */
  function ValueLineEnd(name: Item, p: Parser, tokens: Lex.Tokens): (r: Res<string>)
    requires p.pos <= |tokens.items| && !p.peeked && TokenOk(p, tokens)
    ensures r.Ok? ==> SameModel(p, r.p) && !r.p.peeked && TokenOk(r.p, tokens)
    ensures r.Ok? ==> r.p.pos == p.pos + 2 <= |tokens.items| && Clean(tokens, p.pos, r.p.pos)
    ensures r.Ok? ==> tokens.items[p.pos] == Item(ItemValue, tokens.items[p.pos].pos, r.value)
    ensures r.Ok? ==> tokens.items[p.pos + 1].typ == ItemLineEnd
    ensures r.Fail? && r.failure.Unexpected? ==>
              r.failure.expected == ValueToken || r.failure == Unexpected(name, CrlfToken)
    ensures r.Fail? ==> r.received <= |tokens.items| && Clean(tokens, p.pos, r.received - 1)
  {
    match Expect(p, tokens, ItemValue, ValueToken)
    case Fail(f, n) => Fail(f, n)
    case Ok(value, q) =>
      match Expect(q, tokens, ItemLineEnd, CrlfToken)
      case Fail(f, n) =>
        CleanRead(p, tokens, n - 1);
        Fail(if f.Unexpected? then Unexpected(name, CrlfToken) else f, n)
      case Ok(_, q') =>
        CleanRead(q, tokens, q'.pos);
        CleanRead(p, tokens, q'.pos);
        Ok(value.val, q')
  }

  /** The `:`, the value and the CRLF that end a property line. */
  function ScanLineEnd(name: Item, p: Parser, tokens: Lex.Tokens): (r: Res<string>)
    requires p.pos <= |tokens.items| && TokenOk(p, tokens)
    ensures r.Ok? ==> SameModel(p, r.p) && !r.p.peeked && TokenOk(r.p, tokens)
    ensures r.Ok? ==> r.p.pos == Consumed(p) + 3 <= |tokens.items| && Clean(tokens, Consumed(p), r.p.pos)
    ensures r.Ok? && p.peeked ==> p.token.typ == ItemColon
    ensures r.Ok? ==> EndsLine(tokens, r.p.pos, r.value)
    ensures r.Fail? && r.failure.Unexpected? ==>
              r.failure.expected in {ColonToken, ValueToken} || r.failure == Unexpected(name, CrlfToken)
    ensures r.Fail? ==> r.received <= |tokens.items| && Clean(tokens, Consumed(p), r.received - 1)
  {
    match Expect(p, tokens, ItemColon, ColonToken)
    case Fail(f, n) => Fail(f, n)
    case Ok(_, q) =>
      var r := ValueLineEnd(name, q, tokens);
      CleanRead(p, tokens, if r.Ok? then r.p.pos else r.received - 1);
      r
  }

  /** The rest of a property line after its name: parameters, then
      `ScanLineEnd`. */
  function ScanProperty(name: Item, p: Parser, tokens: Lex.Tokens): (r: Res<Property>)
    requires p.pos <= |tokens.items| && !p.peeked && TokenOk(p, tokens)
    ensures r.Ok? ==> SameModel(p, r.p) && !r.p.peeked && TokenOk(r.p, tokens) && p.pos + 3 <= r.p.pos <= |tokens.items|
    ensures r.Ok? ==> Clean(tokens, p.pos, r.p.pos)
    ensures r.Ok? ==> r.value.name == name.val && WellFormed(r.value)
    ensures r.Ok? ==> EndsLine(tokens, r.p.pos, r.value.value)
    ensures r.Fail? && r.failure.Unexpected? && r.failure.expected == CrlfToken ==> r.failure.found == name
    ensures r.Fail? ==> r.received <= |tokens.items| && Clean(tokens, Consumed(p), r.received - 1)
  {
    match ScanParams(p, tokens)
    case Fail(f, n) => Fail(f, n)
    case Ok(params, q1) =>
      match ScanLineEnd(name, q1, tokens)
      case Fail(f, n) => Fail(f, n)
      case Ok(value, q2) =>
        ParamMapWellFormed(params);
        CleanJoin(tokens, p.pos, Consumed(q1), q2.pos);
        Ok(Property(name.val, ParamMap(params), value), q2)
  }

  /** Whether the calendar goes on after a content line. */
  datatype Flow = Proceed | Stop

  /** The model a delimiter leaves when it does not fail. */
  function Settled(e: Effect, m: Model): Model
  {
    if e.Apply? then e.m else m
  }

  /** `scanDelimiter`, the delimiter already read: its effect on the model,
      then the CRLF that must follow every delimiter but the two VCALENDAR
      ones. */
  function ScanDelimiter(delim: Item, p: Parser, tokens: Lex.Tokens, zone: Zone, lib: TimeLib): (r: Res<Flow>)
    requires ParserOk(p, tokens) && !p.peeked && delim.typ.ItemDelim?
    ensures var e := Delimit(p.m, delim, zone, lib);
      && (r.Ok? && r.value == Stop <==> e.Finish?)
      && (e.Refuse? ==> r == Fail(e.failure, p.pos))
      && (e.Finish? ==> r == Ok(Stop, p))
      && (e.Ignore? ==> r == Ok(Proceed, p))
      && (e.Apply? && r.Ok? ==> r.p.pos == p.pos + 1 <= |tokens.items| && tokens.items[p.pos].typ == ItemLineEnd)
      && (e.Apply? && r.Fail? && r.failure.Unexpected? ==> r.failure.expected == CrlfToken)
      && (r.Ok? ==> r.p.m == Settled(e, p.m))
    ensures r.Ok? ==> ParserOk(r.p, tokens) && !r.p.peeked && p.pos <= r.p.pos && Clean(tokens, p.pos, r.p.pos)
    ensures r.Fail? ==> r.received <= |tokens.items| && Clean(tokens, Consumed(p), r.received - 1)
  {
    match Delimit(p.m, delim, zone, lib)
    case Refuse(f) => Fail(f, p.pos)
    case Finish => Ok(Stop, p)
    case Ignore => Ok(Proceed, p)
    case Apply(m) =>
      match Expect(p.(m := m), tokens, ItemLineEnd, CrlfToken)
      case Fail(f, n) => Fail(f, n)
      case Ok(_, q) => Ok(Proceed, q)
  }

  /** A property line after its name token: the property goes to the
      component of the current scope. */
  function PropertyLine(name: Item, p: Parser, tokens: Lex.Tokens): (r: Res<Flow>)
    requires ParserOk(p, tokens) && !p.peeked
    ensures r.Ok? ==> r.value == Proceed && ParserOk(r.p, tokens) && !r.p.peeked
    ensures r.Ok? ==> p.pos + 3 <= r.p.pos && Clean(tokens, p.pos, r.p.pos)
    ensures r.Ok? ==> Header(r.p.m.cal) == Header(p.m.cal) && r.p.m.scope == p.m.scope
    ensures r.Fail? ==> r.received <= |tokens.items| && Clean(tokens, Consumed(p), r.received - 1)
  {
    match ScanProperty(name, p, tokens)
    case Fail(f, n) => Fail(f, n)
    case Ok(prop, q) =>
      WellFormedDates(prop);
      Ok(Proceed, q.(m := AddProperty(q.m, prop)))
  }

  /** `scanContentLine`: a delimiter, or a property added to the component
      of the current scope. `Stop` is END:VCALENDAR in calendar scope. */
  function ScanContentLine(p: Parser, tokens: Lex.Tokens, zone: Zone, lib: TimeLib): (r: Res<Flow>)
    requires ParserOk(p, tokens) && !p.peeked
    ensures r.Ok? ==> ParserOk(r.p, tokens) && !r.p.peeked && p.pos < r.p.pos && Clean(tokens, p.pos, r.p.pos)
    ensures r.Ok? && r.value == Stop ==>
              && r.p.pos == p.pos + 1 && tokens.items[p.pos].typ == ItemDelim(false, VCalendar)
              && r.p.m == p.m && p.m.scope == CalendarScope && r.p.token.typ == ItemDelim(false, VCalendar)
    ensures r.Ok? && tokens.items[p.pos].typ != ItemDelim(true, VEvent) ==> Header(r.p.m.cal) == Header(p.m.cal)
    ensures r.Fail? ==> r.received <= |tokens.items| && Clean(tokens, Consumed(p), r.received - 1)
    ensures p.pos < |tokens.items| && tokens.items[p.pos].typ == ItemName ==>
              r == PropertyLine(tokens.items[p.pos], Next(p, tokens).p, tokens)
  {
    match Next(p, tokens)
    case Stuck(f) => Fail(f, |tokens.items|)
    case Got(name, q) =>
      CodesAreFaithful(name.typ, ItemError);
      if IsDelimiter(name.typ) then
        var r := ScanDelimiter(name, q, tokens, zone, lib);
        CleanRead(p, tokens, if r.Ok? then r.p.pos else r.received - 1);
        r
      else if !IsItemName(name) then Fail(Unexpected(name, NameToken), q.pos)
      else
        var r := PropertyLine(name, q, tokens);
        CleanRead(p, tokens, if r.Ok? then r.p.pos else r.received - 1);
        r
  }
}
