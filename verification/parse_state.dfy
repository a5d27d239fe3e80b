/** The parser's state (parse.go:12-24): the token stream with its one-slot
    push-back (parse.go:59-82), the component scope (parse.go:84-108), and
    the calendar with the five component slots `v`, `a`, `t`, `s`, `d`.

    Go pointers alias: the event `v` points to is also in the calendar's
    event list once END:VEVENT has appended it, and later changes through `v`
    show there. The state therefore keeps every component in an arena, one
    sequence per kind, and the slots and the parents' child lists hold ids
    into it (or nil). */
module ParserState {
  import opened Util
  import opened ICalendar
  import opened Items
  import opened Dates
  import Lex
  import Validate

  /** The scopes, in the order of their Go constants. */
  datatype Scope = CalendarScope | EventScope | AlarmScope | TimezoneScope | StandardScope | DaylightScope

  datatype Ptr = Nil | Ref(id: nat)

  datatype Arena = Arena(
    events: seq<Event<nat>>,
    alarms: seq<Alarm>,
    timezones: seq<Timezone<Ptr, Ptr>>,
    standards: seq<Standard>,
    daylights: seq<Daylight>)

  /** Everything the parser builds: the scope, the calendar, the arena and
      the five slots. */
  datatype Model = Model(
    scope: Scope,
    cal: Calendar<nat, Ptr>,
    arena: Arena,
    v: Ptr, a: Ptr, t: Ptr, s: Ptr, d: Ptr)

  datatype Parser = Parser(
    pos: nat,          // tokens received from the scanner
    peeked: bool,      // `peekCount == 1`: `token` is handed out again by the next read
    token: Item,       // `token[0]`, the last token received
    m: Model)

  /** What stops a parse. `Unexpected` carries the token the error message
      shows and what the parser wanted; `Unclosed` is END:VCALENDAR inside a
      component. The last three are not errors the caller receives: a nil
      pointer dereference panics, a scanner that never emits again leaves
      the parser waiting forever, and a crashed scanner takes the program
      down. */
  datatype Expected =
    | BeginCalendarToken | CrlfToken | NameToken | ParamNameToken | EqualToken
    | ParamValueToken | ColonToken | ValueToken

  datatype Failure =
    | Unexpected(found: Item, expected: Expected)
    | Rejected(error: Validate.ValidationError)
    | Unclosed(delim: Item)
    | NilDereference
    | Blocked
    | ScannerCrash

  /** The result of a parsing routine: a value and the state after it, or a
      failure and the number of tokens received until then. */
  datatype Res<T> = Ok(value: T, p: Parser) | Fail(failure: Failure, received: nat)

  /* ---------- well-formedness of the arena ---------- */

  predicate PtrIn(x: Ptr, n: nat) { x.Ref? ==> x.id < n }

  predicate IdsIn(ids: seq<nat>, n: nat) { forall i :: 0 <= i < |ids| ==> ids[i] < n }

  predicate PtrsIn(ps: seq<Ptr>, n: nat) { forall i :: 0 <= i < |ps| ==> PtrIn(ps[i], n) }

  /** Every parameter the parser builds has at least one value, so the
      first TZID or VALUE value `parseDate` reads exists. */
  predicate WellFormed(prop: Property)
  {
    forall k :: k in prop.params ==> |prop.params[k].values| >= 1
  }

  lemma WellFormedDates(prop: Property)
    requires WellFormed(prop)
    ensures DateParamsOk(prop)
  {
  }

  /** An event's alarm ids are in the arena and its dates can be parsed. */
  predicate EventFits(e: Event<nat>, alarms: nat)
  {
    IdsIn(e.alarms, alarms) && Validate.DatesOk(e.properties)
  }

  predicate ZoneFits(t: Timezone<Ptr, Ptr>, standards: nat, daylights: nat)
  {
    PtrsIn(t.standards, standards) && PtrsIn(t.daylights, daylights)
  }

  predicate ArenaOk(h: Arena)
  {
    && (forall i :: 0 <= i < |h.events| ==> EventFits(h.events[i], |h.alarms|))
    && (forall i :: 0 <= i < |h.timezones| ==> ZoneFits(h.timezones[i], |h.standards|, |h.daylights|))
  }

  /** Replacing or adding one fitting event keeps the arena well formed. */
  lemma SetEvent(h: Arena, id: nat, e: Event<nat>)
    requires ArenaOk(h) && id <= |h.events| && EventFits(e, |h.alarms|)
    ensures var events := if id == |h.events| then h.events + [e] else h.events[id := e];
            ArenaOk(h.(events := events)) && |events| == if id == |h.events| then id + 1 else |h.events|
  {
    var events := if id == |h.events| then h.events + [e] else h.events[id := e];
    assert forall i :: 0 <= i < |events| ==> events[i] == e || events[i] == h.events[i];
  }

  lemma SetZone(h: Arena, id: nat, t: Timezone<Ptr, Ptr>)
    requires ArenaOk(h) && id <= |h.timezones| && ZoneFits(t, |h.standards|, |h.daylights|)
    ensures var zones := if id == |h.timezones| then h.timezones + [t] else h.timezones[id := t];
            ArenaOk(h.(timezones := zones)) && |zones| == if id == |h.timezones| then id + 1 else |h.timezones|
  {
    var zones := if id == |h.timezones| then h.timezones + [t] else h.timezones[id := t];
    assert forall i :: 0 <= i < |zones| ==> zones[i] == t || zones[i] == h.timezones[i];
  }

  /** Growing the alarm, standard or daylight cells keeps every id in range. */
  lemma GrowCells(h: Arena, alarms: seq<Alarm>, standards: seq<Standard>, daylights: seq<Daylight>)
    requires ArenaOk(h) && |alarms| >= |h.alarms| && |standards| >= |h.standards| && |daylights| >= |h.daylights|
    ensures ArenaOk(h.(alarms := alarms, standards := standards, daylights := daylights))
  {
    forall i | 0 <= i < |h.events| ensures EventFits(h.events[i], |alarms|) {
      assert EventFits(h.events[i], |h.alarms|);
    }
    forall i | 0 <= i < |h.timezones| ensures ZoneFits(h.timezones[i], |standards|, |daylights|) {
      assert ZoneFits(h.timezones[i], |h.standards|, |h.daylights|);
    }
  }

  lemma DatesPush(props: seq<Property>, prop: Property)
    requires Validate.DatesOk(props) && DateParamsOk(prop)
    ensures Validate.DatesOk(props + [prop])
  {
    assert forall i :: 0 <= i < |props + [prop]| ==> (props + [prop])[i] == prop || (props + [prop])[i] == props[i];
  }

  lemma IdsGrow(ids: seq<nat>, n: nat, n': nat)
    requires IdsIn(ids, n) && n <= n'
    ensures IdsIn(ids, n')
  {
  }

  lemma IdsPush(ids: seq<nat>, n: nat, id: nat)
    requires IdsIn(ids, n) && id < n
    ensures IdsIn(ids + [id], n)
  {
    assert forall i :: 0 <= i < |ids + [id]| ==> (ids + [id])[i] == id || (ids + [id])[i] == ids[i];
  }

  lemma PtrsGrow(ps: seq<Ptr>, n: nat, n': nat)
    requires PtrsIn(ps, n) && n <= n'
    ensures PtrsIn(ps, n')
  {
    forall i | 0 <= i < |ps| ensures PtrIn(ps[i], n') {
      assert PtrIn(ps[i], n);
    }
  }

  lemma PtrsPush(ps: seq<Ptr>, n: nat, x: Ptr)
    requires PtrsIn(ps, n) && PtrIn(x, n)
    ensures PtrsIn(ps + [x], n)
  {
    assert forall i :: 0 <= i < |ps + [x]| ==> (ps + [x])[i] == x || (ps + [x])[i] == ps[i];
  }

  /** The slot of the component a scope stands for is not nil. */
  predicate Designates(p: Model, sc: Scope)
  {
    match sc
    case CalendarScope => true
    case EventScope => p.v.Ref?
    case AlarmScope => p.a.Ref?
    case TimezoneScope => p.t.Ref?
    case StandardScope => p.s.Ref?
    case DaylightScope => p.d.Ref?
  }

  /** The component the scope names is never nil: each scope is entered
      together with a fresh component, or after a dereference of its slot. */
  predicate InScope(p: Model)
  {
    Designates(p, p.scope)
  }

  /** The invariant of the parser between tokens. */
  predicate ModelOk(p: Model)
  {
    && ArenaOk(p.arena)
    && IdsIn(p.cal.events, |p.arena.events|)
    && PtrsIn(p.cal.timezones, |p.arena.timezones|)
    && PtrIn(p.v, |p.arena.events|)
    && PtrIn(p.a, |p.arena.alarms|)
    && PtrIn(p.t, |p.arena.timezones|)
    && PtrIn(p.s, |p.arena.standards|)
    && PtrIn(p.d, |p.arena.daylights|)
    && InScope(p)
  }

  /** A real token in `token` is the last one received. */
  predicate TokenOk(p: Parser, tokens: Lex.Tokens)
  {
    p.token.typ != ItemError ==> 1 <= p.pos <= |tokens.items| && p.token == tokens.items[p.pos - 1]
  }

  predicate ParserOk(p: Parser, tokens: Lex.Tokens)
  {
    p.pos <= |tokens.items| && TokenOk(p, tokens) && ModelOk(p.m)
  }

  /** A real current token is the token at `pos - 1`. */
  lemma TokenAt(p: Parser, tokens: Lex.Tokens)
    requires TokenOk(p, tokens) && p.token.typ != ItemError
    ensures 1 <= p.pos <= |tokens.items| && tokens.items[p.pos - 1].typ == p.token.typ
  {
  }

  /** The number of tokens taken and not pushed back. */
  function Consumed(p: Parser): int
  {
    p.pos - (if p.peeked then 1 else 0)
  }

  /** Token `i` exists and is an error token. */
  predicate ErrorAt(tokens: Lex.Tokens, i: int)
  {
    0 <= i < |tokens.items| && tokens.items[i].typ == ItemError
  }

  /** None of the tokens from `lo` up to `hi` is an error token. */
  predicate Clean(tokens: Lex.Tokens, lo: int, hi: int)
  {
    forall i :: lo <= i < hi ==> !ErrorAt(tokens, i)
  }

  lemma CleanEmpty(tokens: Lex.Tokens, lo: int, hi: int)
    requires hi <= lo
    ensures Clean(tokens, lo, hi)
  {
  }

  lemma CleanJoin(tokens: Lex.Tokens, lo: int, mid: int, hi: int)
    requires Clean(tokens, lo, mid) && Clean(tokens, mid, hi)
    ensures Clean(tokens, lo, hi)
  {
  }

  /** A real token just read extends the clean range by one. */
  lemma CleanRead(p: Parser, tokens: Lex.Tokens, hi: int)
    requires p.pos <= |tokens.items| && TokenOk(p, tokens)
    requires Next(p, tokens).Got? && Next(p, tokens).item.typ != ItemError
    requires Clean(tokens, Consumed(Next(p, tokens).p), hi)
    ensures Clean(tokens, Consumed(p), hi)
  {
  }

  /** Only the reading position moved. */
  predicate SameModel(p: Parser, q: Parser)
  {
    q.m == p.m
  }

  /** The parser's initial state (parse.go:30-31). */
  function Initial(): (p: Parser)
    ensures ModelOk(p.m) && p.pos == 0 && !p.peeked && p.token == ZeroItem
    ensures p.m.cal == NewCalendar() && p.m.scope == CalendarScope
  {
    Parser(0, false, ZeroItem, Model(CalendarScope, NewCalendar(), Arena([], [], [], [], []), Nil, Nil, Nil, Nil, Nil))
  }

  /* ---------- the token stream ---------- */

  /** Twice the tokens still unread, plus one for a pushed-back token: every
      read of a real token lowers it, a push-back raises it by one. */
  function Measure(p: Parser, tokens: Lex.Tokens): nat
    requires p.pos <= |tokens.items|
  {
    2 * (|tokens.items| - p.pos) + (if p.peeked then 1 else 0)
  }

  datatype Read = Got(item: Item, p: Parser) | Stuck(failure: Failure)

  /** `next`: the pushed-back token if there is one, else the next token of
      the scanner. Past the last token, a closed channel yields the zero token
      (an error token) every time; a scanner that loops forever blocks the
      read; a crashed scanner ends the program. */
  function Next(p: Parser, tokens: Lex.Tokens): (r: Read)
    requires p.pos <= |tokens.items|
    ensures r.Stuck? <==> !p.peeked && p.pos == |tokens.items| && tokens.tail != Lex.Closed
    ensures r.Stuck? ==> r.failure == (if tokens.tail == Lex.Hangs then Blocked else ScannerCrash)
    ensures r.Got? ==> SameModel(p, r.p) && !r.p.peeked && r.p.token == r.item && r.p.pos <= |tokens.items|
    ensures r.Got? && p.peeked ==> r.item == p.token && r.p.pos == p.pos
    ensures r.Got? && !p.peeked ==>
              if p.pos < |tokens.items| then r.item == tokens.items[p.pos] && r.p.pos == p.pos + 1
              else r.item == ZeroItem && r.p.pos == p.pos
    ensures r.Got? ==> Measure(r.p, tokens) <= Measure(p, tokens)
    ensures r.Got? && r.item.typ != ItemError ==> Measure(r.p, tokens) < Measure(p, tokens)
    ensures r.Got? && TokenOk(p, tokens) ==> TokenOk(r.p, tokens)
    ensures r.Got? ==> Consumed(r.p) <= Consumed(p) + 1
    ensures r.Got? && TokenOk(p, tokens) && r.item.typ != ItemError ==>
              Consumed(r.p) == Consumed(p) + 1 && r.p.pos == Consumed(r.p) &&
              tokens.items[Consumed(p)] == r.item
  {
    if p.peeked then Got(p.token, p.(peeked := false))
    else if p.pos < |tokens.items| then
      var item := tokens.items[p.pos];
      Got(item, p.(pos := p.pos + 1, token := item))
    else
      match tokens.tail
      case Closed => Got(ZeroItem, p.(token := ZeroItem))
      case Hangs => Stuck(Blocked)
      case Panics => Stuck(ScannerCrash)
  }

  /** `backup`: the parser only ever pushes back the token it has just read. */
  function Backup(p: Parser): (q: Parser)
    requires !p.peeked
    ensures SameModel(p, q) && q.peeked && q.pos == p.pos && q.token == p.token
    ensures Consumed(q) == Consumed(p) - 1
  {
    p.(peeked := true)
  }

  /** A pushed-back token is read again, and the stream is where it was. */
  lemma NextAfterBackup(p: Parser, tokens: Lex.Tokens)
    requires p.pos <= |tokens.items| && Next(p, tokens).Got?
    ensures var r := Next(p, tokens);
            Next(Backup(r.p), tokens) == Got(r.item, r.p)
  {
  }

  /** A read that insists on one token type. */
  function Expect(p: Parser, tokens: Lex.Tokens, typ: ItemType, what: Expected): (r: Res<Item>)
    requires p.pos <= |tokens.items|
    ensures r.Ok? ==> Next(p, tokens) == Got(r.value, r.p) && r.value.typ == typ
    ensures r.Ok? ==> SameModel(p, r.p) && !r.p.peeked && r.p.pos <= |tokens.items|
    ensures r.Ok? && typ != ItemError ==> Measure(r.p, tokens) < Measure(p, tokens)
    ensures r.Ok? && typ != ItemError && TokenOk(p, tokens) ==>
              TokenOk(r.p, tokens) && Consumed(r.p) == Consumed(p) + 1 && r.p.pos == Consumed(r.p) &&
              tokens.items[Consumed(p)] == r.value
    ensures r.Fail? ==> r.received <= |tokens.items|
    ensures r.Fail? && r.failure.Unexpected? ==> r.failure.expected == what && r.failure.found.typ != typ
    ensures r.Fail? ==> Next(p, tokens).Stuck? || r.failure.Unexpected?
    ensures r.Fail? ==> Clean(tokens, Consumed(p), r.received - 1)
  {
    match Next(p, tokens)
    case Stuck(f) => Fail(f, |tokens.items|)
    case Got(item, q) => if item.typ == typ then Ok(item, q) else Fail(Unexpected(item, what), q.pos)
  }
}
