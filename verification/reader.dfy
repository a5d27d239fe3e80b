/** The entry point (parse.go:29-49 and 118-138): unfold the text, scan it,
    parse the token stream, and what the caller of `Parse` observes. */
module Reader {
  import opened Util
  import opened Time
  import opened ICalendar
  import opened Items
  import opened ParserState
  import opened Scopes
  import opened Parsing
  import Lex
  import Unfolding

  /** No token from `lo` up to `hi` has type `t`. */
  predicate Absent(tokens: Lex.Tokens, lo: int, hi: int, t: ItemType)
  {
    forall i :: lo <= i < hi && 0 <= i < |tokens.items| ==> tokens.items[i].typ != t
  }

  /** The loop of `parse`: content lines until END:VCALENDAR in calendar
      scope. Nothing after that END:VCALENDAR is read: a successful loop
      stops on it, back in calendar scope. What else the loop delivers is
      stated by `LinesSucceed` and `LinesFail`. */
  function ParseLines(p: Parser, tokens: Lex.Tokens, zone: Zone, lib: TimeLib): (r: Res<()>)
    requires ParserOk(p, tokens) && !p.peeked
    ensures r.Ok? ==> r.p.token.typ == ItemDelim(false, VCalendar) && r.p.m.scope == CalendarScope
    decreases Measure(p, tokens)
  {
    match ScanContentLine(p, tokens, zone, lib)
    case Fail(f, n) => Fail(f, n)
    case Ok(Stop, q) => Ok((), q)
    case Ok(Proceed, q) => ParseLines(q, tokens, zone, lib)
  }

  lemma CleanJoinAny(tokens: Lex.Tokens, lo: int, mid: int)
    requires lo <= mid && Clean(tokens, lo, mid)
    ensures forall hi :: mid <= hi && Clean(tokens, mid, hi) ==> Clean(tokens, lo, hi)
  {
    forall hi | mid <= hi && Clean(tokens, mid, hi)
      ensures Clean(tokens, lo, hi)
    {
      CleanJoin(tokens, lo, mid, hi);
    }
  }

  /** One turn of the loop: a failed or final content line ends it, any
      other line hands over to the rest of the loop. */
  lemma LinesUnfold(p: Parser, tokens: Lex.Tokens, zone: Zone, lib: TimeLib)
    requires ParserOk(p, tokens) && !p.peeked
    ensures var s := ScanContentLine(p, tokens, zone, lib);
      && (s.Fail? ==> ParseLines(p, tokens, zone, lib) == Fail(s.failure, s.received))
      && (s.Ok? && s.value == Stop ==> ParseLines(p, tokens, zone, lib) == Ok((), s.p))
      && (s.Ok? && s.value == Proceed ==> ParseLines(p, tokens, zone, lib) == ParseLines(s.p, tokens, zone, lib))
  {
  }

  /** A successful loop ends on an END:VCALENDAR token read in calendar
      scope, with a well-formed model and no error token on the way. */
  lemma {:induction false} LinesSucceed(p: Parser, tokens: Lex.Tokens, zone: Zone, lib: TimeLib)
    requires ParserOk(p, tokens) && !p.peeked
    ensures var r := ParseLines(p, tokens, zone, lib);
      r.Ok? ==>
        && ParserOk(r.p, tokens) && !r.p.peeked && p.pos < r.p.pos && Clean(tokens, p.pos, r.p.pos)
        && r.p.m.scope == CalendarScope
    decreases Measure(p, tokens)
  {
    LinesUnfold(p, tokens, zone, lib);
    var s := ScanContentLine(p, tokens, zone, lib);
    if s.Ok? && s.value == Proceed {
      LinesSucceed(s.p, tokens, zone, lib);
      CleanJoinAny(tokens, p.pos, s.p.pos);
    }
  }

  /** A failing loop has taken no error token before the last one it took. */
  lemma {:induction false} LinesFail(p: Parser, tokens: Lex.Tokens, zone: Zone, lib: TimeLib)
    requires ParserOk(p, tokens) && !p.peeked
    ensures var r := ParseLines(p, tokens, zone, lib);
      r.Fail? ==> r.received <= |tokens.items| && Clean(tokens, p.pos, r.received - 1)
    decreases Measure(p, tokens)
  {
    LinesUnfold(p, tokens, zone, lib);
    var s := ScanContentLine(p, tokens, zone, lib);
    if s.Ok? && s.value == Proceed {
      LinesFail(s.p, tokens, zone, lib);
      var r := ParseLines(s.p, tokens, zone, lib);
      if r.Fail? {
        CleanJoin(tokens, p.pos, s.p.pos, r.received - 1);
      }
    }
  }

  /** Without a BEGIN:VEVENT the loop leaves the header fields alone. */
  lemma {:induction false} NoEventKeepsHeader(p: Parser, tokens: Lex.Tokens, zone: Zone, lib: TimeLib)
    requires ParserOk(p, tokens) && !p.peeked
    ensures var r := ParseLines(p, tokens, zone, lib);
      r.Ok? && Absent(tokens, p.pos, r.p.pos, ItemDelim(true, VEvent)) ==> Header(r.p.m.cal) == Header(p.m.cal)
    decreases Measure(p, tokens)
  {
    var s := ScanContentLine(p, tokens, zone, lib);
    if s.Ok? && s.value == Proceed {
      LinesSucceed(s.p, tokens, zone, lib);
      NoEventKeepsHeader(s.p, tokens, zone, lib);
    }
  }

  /** The first two tokens `parse` requires: BEGIN:VCALENDAR and a line end. */
  function OpenCalendar(tokens: Lex.Tokens): (r: Res<()>)
    ensures r.Ok? ==> ParserOk(r.p, tokens) && !r.p.peeked && r.p.pos == 2 && r.p.m == Initial().m && Clean(tokens, 0, 2)
    ensures r.Ok? ==> tokens.items[0].typ == ItemDelim(true, VCalendar) && tokens.items[1].typ == ItemLineEnd
    ensures r.Fail? ==> r.received <= |tokens.items| && Clean(tokens, 0, r.received - 1)
  {
    var p := Initial();
    match Expect(p, tokens, ItemDelim(true, VCalendar), BeginCalendarToken)
    case Fail(f, n) => Fail(f, n)
    case Ok(_, q1) =>
      match Expect(q1, tokens, ItemLineEnd, CrlfToken)
      case Fail(f, n) => Fail(f, n)
      case Ok(_, q2) => Ok((), q2)
  }

  /** `parse`: BEGIN:VCALENDAR, a line end, then content lines; the result
      is the calendar as it stands at END:VCALENDAR. */
  function ParseTokens(tokens: Lex.Tokens, zone: Zone, lib: TimeLib): (r: Res<Model>)
    ensures r.Ok? ==> 3 <= r.p.pos <= |tokens.items| && Clean(tokens, 0, r.p.pos) && ModelOk(r.value)
    ensures r.Ok? ==> ParserOk(r.p, tokens) && r.p.token.typ == ItemDelim(false, VCalendar)
    ensures r.Fail? ==> r.received <= |tokens.items| && Clean(tokens, 0, r.received - 1)
  {
    match OpenCalendar(tokens)
    case Fail(f, n) => Fail(f, n)
    case Ok(_, q) =>
      LinesSucceed(q, tokens, zone, lib);
      LinesFail(q, tokens, zone, lib);
      match ParseLines(q, tokens, zone, lib)
      case Fail(f, n) => CleanJoin(tokens, 0, 2, n - 1); Fail(f, n)
      case Ok(_, q') => CleanJoin(tokens, 0, 2, q'.pos); Ok(q'.m, q')
  }

  /** A calendar that parses starts with BEGIN:VCALENDAR and a line end. */
  lemma CalendarOpens(tokens: Lex.Tokens, zone: Zone, lib: TimeLib)
    ensures ParseTokens(tokens, zone, lib).Ok? ==>
              tokens.items[0].typ == ItemDelim(true, VCalendar) && tokens.items[1].typ == ItemLineEnd
  {
  }

  /** The last token a successful parse takes is END:VCALENDAR. */
  lemma CalendarCloses(tokens: Lex.Tokens, zone: Zone, lib: TimeLib)
    ensures var r := ParseTokens(tokens, zone, lib);
      r.Ok? ==> tokens.items[r.p.pos - 1].typ == ItemDelim(false, VCalendar)
  {
    var r := ParseTokens(tokens, zone, lib);
    if r.Ok? {
      TokenAt(r.p, tokens);
    }
  }

  /** The calendar is validated only at a BEGIN:VEVENT, so one without
      events comes back with the header fields of `NewCalendar`, whatever
      PRODID, VERSION, CALSCALE or METHOD properties it has. */
  lemma CalendarWithoutEvents(tokens: Lex.Tokens, zone: Zone, lib: TimeLib)
    ensures var r := ParseTokens(tokens, zone, lib);
      r.Ok? && Absent(tokens, 0, r.p.pos, ItemDelim(true, VEvent)) ==> Header(r.value.cal) == ("", "", Gregorian, "")
  {
    var o := OpenCalendar(tokens);
    if o.Ok? {
      NoEventKeepsHeader(o.p, tokens, zone, lib);
    }
  }

  /** What the caller of `Parse` sees. */
  datatype Outcome = Parsed(cal: CalendarValue) | Error(failure: Failure) | Panic | Hang

  /** The number of tokens the parser took from the scanner. */
  function Received<T>(r: Res<T>): nat
  {
    if r.Ok? then r.p.pos else r.received
  }

  /** A nil dereference or a crash of the scanner ends the program, and a
      scanner that loops forever leaves the parser waiting. A scanner that
      crashes right after its last token does so once the parser has taken
      that token, even if the parser has returned by then; if the parser
      stops earlier, the scanner stays blocked on its next send and nothing
      is seen of it. */
  function Conclude(tokens: Lex.Tokens, r: Res<Model>): (o: Outcome)
    requires r.Ok? ==> ModelOk(r.value)
    ensures o.Parsed? ==> r.Ok? && o.cal == Materialize(r.value)
    ensures o.Error? ==> r.Fail? && o.failure == r.failure
    ensures o.Error? ==> r.failure.Unexpected? || r.failure.Rejected? || r.failure.Unclosed?
    ensures o.Hang? <==> r.Fail? && r.failure == Blocked
    ensures o.Panic? <==>
              || (r.Fail? && (r.failure == NilDereference || r.failure == ScannerCrash))
              || (tokens.tail == Lex.Panics && Received(r) == |tokens.items| && !(r.Fail? && r.failure == Blocked))
  {
    if r.Fail? && r.failure == Blocked then Hang
    else if r.Fail? && (r.failure == NilDereference || r.failure == ScannerCrash) then Panic
    else if tokens.tail == Lex.Panics && Received(r) == |tokens.items| then Panic
    else if r.Ok? then Parsed(Materialize(r.value))
    else Error(r.failure)
  }

  /** The token streams a scan can produce: a crashed scan ends with the
      error token it sent before crashing. */
  predicate Scanned(tokens: Lex.Tokens)
  {
    tokens.tail == Lex.Panics ==> |tokens.items| >= 1 && tokens.items[|tokens.items| - 1].typ == ItemError
  }

  /** A parse that succeeds never takes the scanner's last error token, so a
      scanner crash after it cannot take the result away. */
  lemma SuccessIsDelivered(tokens: Lex.Tokens, zone: Zone, lib: TimeLib)
    requires Scanned(tokens)
    ensures var r := ParseTokens(tokens, zone, lib);
      Conclude(tokens, r).Parsed? <==> r.Ok?
  {
    var r := ParseTokens(tokens, zone, lib);
    if r.Ok? && tokens.tail == Lex.Panics {
      assert ErrorAt(tokens, |tokens.items| - 1);
      assert r.p.pos < |tokens.items|;
    }
  }

  /** The parser never takes a token past the first error token: whatever
      the scanner does after an error is never seen. */
  lemma StopsAtFirstError(tokens: Lex.Tokens, zone: Zone, lib: TimeLib, k: nat)
    requires k < |tokens.items| && tokens.items[k].typ == ItemError
    ensures Received(ParseTokens(tokens, zone, lib)) <= k + 1
  {
    var r := ParseTokens(tokens, zone, lib);
    assert ErrorAt(tokens, k);
    if r.Ok? {
      assert k >= r.p.pos;
    } else {
      assert k >= r.received - 1;
    }
  }

  /** What the caller sees for a token stream the scanner can produce:
      a calendar exactly when the parse succeeds. */
  function Deliver(tokens: Lex.Tokens, zone: Zone, lib: TimeLib): (o: Outcome)
    ensures Scanned(tokens) ==> (o.Parsed? <==> ParseTokens(tokens, zone, lib).Ok?)
    ensures o.Parsed? ==> ParseTokens(tokens, zone, lib).Ok? && o.cal == Materialize(ParseTokens(tokens, zone, lib).value)
  {
    if Scanned(tokens) then SuccessIsDelivered(tokens, zone, lib); Conclude(tokens, ParseTokens(tokens, zone, lib))
    else Conclude(tokens, ParseTokens(tokens, zone, lib))
  }

  /** `Parse`: the bytes read from the reader are `text`, and `zone` is the
      default location (the caller's, or `time.Local`). */
  function Parse(text: string, zone: Zone, lib: TimeLib): (o: Outcome)
    ensures o.Parsed? <==> ParseTokens(Lex.Lex(Unfolding.Unfold(text)), zone, lib).Ok?
    ensures o.Parsed? ==> o.cal == Materialize(ParseTokens(Lex.Lex(Unfolding.Unfold(text)), zone, lib).value)
  {
    Deliver(Lex.Lex(Unfolding.Unfold(text)), zone, lib)
  }
}
