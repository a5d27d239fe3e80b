/** What a content line or a BEGIN:/END: delimiter does to the components
    under construction (parse.go:141-276 and 316-331), apart from reading
    tokens: scope changes, validation, appending to parents, and the nil
    dereferences an unbalanced input provokes. Also the finished tree the
    parser returns, read out of the arena. */
module Scopes {
  import opened Util
  import opened Time
  import opened ICalendar
  import opened Items
  import opened Validate
  import opened ParserState
  import opened Dates

  /* ---------- properties ---------- */

  /** The property list of the component a scope's slot designates. */
  function PropsOf(m: Model, sc: Scope): seq<Property>
    requires ModelOk(m) && Designates(m, sc)
  {
    match sc
    case CalendarScope => m.cal.properties
    case EventScope => m.arena.events[m.v.id].properties
    case AlarmScope => m.arena.alarms[m.a.id].properties
    case TimezoneScope => m.arena.timezones[m.t.id].properties
    case StandardScope => m.arena.standards[m.s.id].properties
    case DaylightScope => m.arena.daylights[m.d.id].properties
  }

  /** The four calendar fields validation promotes. */
  function Header<E, T>(c: Calendar<E, T>): (string, string, string, string)
  {
    (c.prodid, c.version, c.calscale, c.methodName)
  }

  /** The end of `scanContentLine`: the property goes to the component of
      the current scope, and to nothing else. */
  function AddProperty(m: Model, prop: Property): (r: Model)
    requires ModelOk(m) && DateParamsOk(prop)
    ensures ModelOk(r)
    ensures r.scope == m.scope && r.v == m.v && r.a == m.a && r.t == m.t && r.s == m.s && r.d == m.d
    ensures r.cal.events == m.cal.events && r.cal.timezones == m.cal.timezones && Header(r.cal) == Header(m.cal)
    ensures PropsOf(r, m.scope) == PropsOf(m, m.scope) + [prop]
    ensures forall sc :: sc != m.scope && Designates(m, sc) ==> PropsOf(r, sc) == PropsOf(m, sc)
  {
    var h := m.arena;
    match m.scope
    case CalendarScope =>
      m.(cal := m.cal.(properties := m.cal.properties + [prop]))
    case EventScope =>
      var e := h.events[m.v.id];
      assert EventFits(e, |h.alarms|);
      DatesPush(e.properties, prop);
      SetEvent(h, m.v.id, e.(properties := e.properties + [prop]));
      m.(arena := h.(events := h.events[m.v.id := e.(properties := e.properties + [prop])]))
    case AlarmScope =>
      var a := h.alarms[m.a.id];
      var alarms := h.alarms[m.a.id := a.(properties := a.properties + [prop])];
      GrowCells(h, alarms, h.standards, h.daylights);
      m.(arena := h.(alarms := alarms))
    case TimezoneScope =>
      var t := h.timezones[m.t.id];
      assert ZoneFits(t, |h.standards|, |h.daylights|);
      SetZone(h, m.t.id, t.(properties := t.properties + [prop]));
      m.(arena := h.(timezones := h.timezones[m.t.id := t.(properties := t.properties + [prop])]))
    case StandardScope =>
      var s := h.standards[m.s.id];
      var standards := h.standards[m.s.id := s.(properties := s.properties + [prop])];
      GrowCells(h, h.alarms, standards, h.daylights);
      m.(arena := h.(standards := standards))
    case DaylightScope =>
      var d := h.daylights[m.d.id];
      var daylights := h.daylights[m.d.id := d.(properties := d.properties + [prop])];
      GrowCells(h, h.alarms, h.standards, daylights);
      m.(arena := h.(daylights := daylights))
  }

  /* ---------- delimiters ---------- */

  /** The component whose properties a scope collects. */
  function ScopeComponent(scope: Scope): Component
  {
    match scope
    case CalendarScope => VCalendar
    case EventScope => VEvent
    case AlarmScope => VAlarm
    case TimezoneScope => VTimezone
    case StandardScope => StandardTime
    case DaylightScope => DaylightTime
  }

  /** The component that holds `c` in the nesting of RFC 5545, section 3.6:
      alarms sit in events, standard and daylight parts in timezones, and
      events and timezones in the calendar. */
  function Container(c: Component): Component
  {
    match c
    case VAlarm => VEvent
    case StandardTime => VTimezone
    case DaylightTime => VTimezone
    case _ => VCalendar
  }

  /** The scope each delimiter leaves the parser in: BEGIN enters the
      component's own scope; END returns to the scope of the component's
      container, whatever scope the parser was in; BEGIN:VCALENDAR and
      END:VCALENDAR keep it. */
  function ScopeAfter(delim: ItemType, scope: Scope): (r: Scope)
    requires delim.ItemDelim?
    ensures delim.comp == VCalendar ==> r == scope
    ensures delim.comp != VCalendar && delim.begin ==> ScopeComponent(r) == delim.comp
    ensures delim.comp != VCalendar && !delim.begin ==> ScopeComponent(r) == Container(delim.comp)
  {
    match delim.comp
    case VCalendar => scope
    case VEvent => if delim.begin then EventScope else CalendarScope
    case VAlarm => if delim.begin then AlarmScope else EventScope
    case VTimezone => if delim.begin then TimezoneScope else CalendarScope
    case StandardTime => if delim.begin then StandardScope else TimezoneScope
    case DaylightTime => if delim.begin then DaylightScope else TimezoneScope
  }

  /** The delimiters that dereference a nil slot, and so panic. */
  predicate DereferencesNil(m: Model, delim: ItemType)
    requires ModelOk(m) && delim.ItemDelim?
  {
    match delim.comp
    case VEvent => !delim.begin && m.v.Nil?
    case VAlarm => !delim.begin && (m.a.Nil? || (ValidateAlarm(m.arena.alarms[m.a.id]).Valid? && m.v.Nil?))
    case StandardTime => !delim.begin && m.t.Nil?
    case DaylightTime => !delim.begin && m.t.Nil?
    case _ => false
  }

  /** The delimiters whose validation fails. Only BEGIN:VEVENT (the
      calendar), END:VEVENT and END:VALARM are validated at all:
      `validateTimezone`, `validateStandard` and `validateDaylight` accept
      anything. */
  function RejectedBy(m: Model, delim: ItemType, zone: Zone, lib: TimeLib): (b: bool)
    requires ModelOk(m) && delim.ItemDelim?
    ensures b ==> delim.comp == VEvent || (delim.comp == VAlarm && !delim.begin)
  {
    match delim.comp
    case VEvent =>
      if delim.begin then ValidateCalendar(m.cal).Invalid?
      else m.v.Ref? && ValidateEvent(m.arena.events[m.v.id], m.cal.methodName, zone, lib).Invalid?
    case VAlarm => !delim.begin && m.a.Ref? && ValidateAlarm(m.arena.alarms[m.a.id]).Invalid?
    case _ => false
  }

  /** What a delimiter does to the model. */
  datatype Effect = Apply(m: Model) | Refuse(failure: Failure) | Ignore | Finish

  function BeginEvent(m: Model): (r: Effect)
    requires ModelOk(m)
    ensures r.Apply? || (r.Refuse? && r.failure.Rejected?)
    ensures r.Refuse? <==> ValidateCalendar(m.cal).Invalid?
    ensures r.Apply? ==> ModelOk(r.m) && r.m.scope == EventScope && r.m.cal == ValidateCalendar(m.cal).value
    ensures r.Apply? ==> r.m.v == Ref(|m.arena.events|) && |r.m.arena.events| == |m.arena.events| + 1
    ensures r.Apply? ==> r.m.arena.events[r.m.v.id] == NewEvent()
  {
    match ValidateCalendar(m.cal)
    case Invalid(e) => Refuse(Rejected(e))
    case Valid(c) =>
      var id := |m.arena.events|;
      SetEvent(m.arena, id, NewEvent());
      IdsGrow(m.cal.events, id, id + 1);
      Apply(m.(scope := EventScope, cal := c, arena := m.arena.(events := m.arena.events + [NewEvent()]), v := Ref(id)))
  }

  function EndEvent(m: Model, zone: Zone, lib: TimeLib): (r: Effect)
    requires ModelOk(m)
    ensures r.Apply? || r.Refuse?
    ensures r.Refuse? && r.failure == NilDereference <==> m.v.Nil?
    ensures r.Refuse? && r.failure.Rejected? <==>
              m.v.Ref? && ValidateEvent(m.arena.events[m.v.id], m.cal.methodName, zone, lib).Invalid?
    ensures r.Apply? ==> m.v.Ref? && ModelOk(r.m) && r.m.scope == CalendarScope && Header(r.m.cal) == Header(m.cal)
    ensures r.Apply? ==> r.m.cal.events == m.cal.events + [m.v.id] && |r.m.arena.events| == |m.arena.events|
    ensures r.Apply? ==> r.m.v == m.v && r.m.arena.alarms == m.arena.alarms
    ensures r.Apply? ==>
              r.m.arena.events[m.v.id] == ValidateEvent(m.arena.events[m.v.id], m.cal.methodName, zone, lib).value
  {
    if m.v.Nil? then Refuse(NilDereference)
    else
      var h := m.arena;
      match ValidateEvent(h.events[m.v.id], m.cal.methodName, zone, lib)
      case Invalid(e) => Refuse(Rejected(e))
      case Valid(e) =>
        assert EventFits(h.events[m.v.id], |h.alarms|);
        SetEvent(h, m.v.id, e);
        IdsPush(m.cal.events, |h.events|, m.v.id);
        Apply(m.(scope := CalendarScope, cal := m.cal.(events := m.cal.events + [m.v.id]),
                 arena := h.(events := h.events[m.v.id := e])))
  }

  function BeginAlarm(m: Model): (r: Effect)
    requires ModelOk(m)
    ensures r.Apply? && ModelOk(r.m) && r.m.scope == AlarmScope && r.m.cal == m.cal
    ensures r.m.a == Ref(|m.arena.alarms|) && |r.m.arena.alarms| == |m.arena.alarms| + 1
    ensures r.m.arena.alarms[r.m.a.id] == NewAlarm()
  {
    var h := m.arena;
    GrowCells(h, h.alarms + [NewAlarm()], h.standards, h.daylights);
    Apply(m.(scope := AlarmScope, arena := h.(alarms := h.alarms + [NewAlarm()]), a := Ref(|h.alarms|)))
  }

  /** Validation comes before the parent event is dereferenced, so a bad
      alarm outside an event is an error and a good one a panic. */
  function EndAlarm(m: Model): (r: Effect)
    requires ModelOk(m)
    ensures r.Apply? || r.Refuse?
    ensures r.Refuse? && r.failure == NilDereference <==>
              m.a.Nil? || (ValidateAlarm(m.arena.alarms[m.a.id]).Valid? && m.v.Nil?)
    ensures r.Refuse? && r.failure.Rejected? <==> m.a.Ref? && ValidateAlarm(m.arena.alarms[m.a.id]).Invalid?
    ensures r.Apply? ==> m.a.Ref? && m.v.Ref? && ModelOk(r.m) && r.m.scope == EventScope && r.m.cal == m.cal
    ensures r.Apply? ==> |r.m.arena.events| == |m.arena.events| && |r.m.arena.alarms| == |m.arena.alarms|
    ensures r.Apply? ==> r.m.arena.events[m.v.id].alarms == m.arena.events[m.v.id].alarms + [m.a.id]
    ensures r.Apply? ==> r.m.arena.alarms[m.a.id] == ValidateAlarm(m.arena.alarms[m.a.id]).value
  {
    if m.a.Nil? then Refuse(NilDereference)
    else
      match ValidateAlarm(m.arena.alarms[m.a.id])
      case Invalid(e) => Refuse(Rejected(e))
      case Valid(a) =>
        if m.v.Nil? then Refuse(NilDereference)
        else
          var h := m.arena;
          var h1 := h.(alarms := h.alarms[m.a.id := a]);
          GrowCells(h, h1.alarms, h.standards, h.daylights);
          var e := h.events[m.v.id];
          assert EventFits(e, |h.alarms|);
          IdsPush(e.alarms, |h.alarms|, m.a.id);
          SetEvent(h1, m.v.id, e.(alarms := e.alarms + [m.a.id]));
          Apply(m.(scope := EventScope, arena := h1.(events := h.events[m.v.id := e.(alarms := e.alarms + [m.a.id])])))
  }

  /** `validateTimezone` accepts anything, nil included. */
  function BeginTimezone(m: Model): (r: Effect)
    requires ModelOk(m)
    ensures r.Apply? && ModelOk(r.m) && r.m.scope == TimezoneScope && r.m.cal == m.cal
    ensures r.m.t == Ref(|m.arena.timezones|) && |r.m.arena.timezones| == |m.arena.timezones| + 1
    ensures r.m.arena.timezones[r.m.t.id] == NewTimezone()
  {
    var h := m.arena;
    SetZone(h, |h.timezones|, NewTimezone());
    PtrsGrow(m.cal.timezones, |h.timezones|, |h.timezones| + 1);
    Apply(m.(scope := TimezoneScope, arena := h.(timezones := h.timezones + [NewTimezone()]), t := Ref(|h.timezones|)))
  }

  /** END:VTIMEZONE appends the slot as it is, nil or not. */
  function EndTimezone(m: Model): (r: Effect)
    requires ModelOk(m)
    ensures r.Apply? && ModelOk(r.m) && r.m.scope == CalendarScope && Header(r.m.cal) == Header(m.cal)
    ensures r.m.cal.timezones == m.cal.timezones + [m.t] && r.m.cal.events == m.cal.events
  {
    PtrsPush(m.cal.timezones, |m.arena.timezones|, m.t);
    Apply(m.(scope := CalendarScope, cal := m.cal.(timezones := m.cal.timezones + [m.t])))
  }

  function BeginStandard(m: Model): (r: Effect)
    requires ModelOk(m)
    ensures r.Apply? && ModelOk(r.m) && r.m.scope == StandardScope && r.m.cal == m.cal
    ensures r.m.s == Ref(|m.arena.standards|) && |r.m.arena.standards| == |m.arena.standards| + 1
    ensures r.m.arena.standards[r.m.s.id] == NewStandard()
  {
    var h := m.arena;
    GrowCells(h, h.alarms, h.standards + [NewStandard()], h.daylights);
    Apply(m.(scope := StandardScope, arena := h.(standards := h.standards + [NewStandard()]), s := Ref(|h.standards|)))
  }

  /** END:STANDARD appends the slot, nil or not, to the current timezone,
      which must not be nil. */
  function EndStandard(m: Model): (r: Effect)
    requires ModelOk(m)
    ensures r.Apply? || r == Refuse(NilDereference)
    ensures r.Refuse? <==> m.t.Nil?
    ensures r.Apply? ==> ModelOk(r.m) && r.m.scope == TimezoneScope && r.m.cal == m.cal
    ensures r.Apply? ==> |r.m.arena.timezones| == |m.arena.timezones|
    ensures r.Apply? ==> r.m.arena.timezones[m.t.id].standards == m.arena.timezones[m.t.id].standards + [m.s]
  {
    if m.t.Nil? then Refuse(NilDereference)
    else
      var h := m.arena;
      var t := h.timezones[m.t.id];
      assert ZoneFits(t, |h.standards|, |h.daylights|);
      PtrsPush(t.standards, |h.standards|, m.s);
      SetZone(h, m.t.id, t.(standards := t.standards + [m.s]));
      Apply(m.(scope := TimezoneScope, arena := h.(timezones := h.timezones[m.t.id := t.(standards := t.standards + [m.s])])))
  }

  function BeginDaylight(m: Model): (r: Effect)
    requires ModelOk(m)
    ensures r.Apply? && ModelOk(r.m) && r.m.scope == DaylightScope && r.m.cal == m.cal
    ensures r.m.d == Ref(|m.arena.daylights|) && |r.m.arena.daylights| == |m.arena.daylights| + 1
    ensures r.m.arena.daylights[r.m.d.id] == NewDaylight()
  {
    var h := m.arena;
    GrowCells(h, h.alarms, h.standards, h.daylights + [NewDaylight()]);
    Apply(m.(scope := DaylightScope, arena := h.(daylights := h.daylights + [NewDaylight()]), d := Ref(|h.daylights|)))
  }

  function EndDaylight(m: Model): (r: Effect)
    requires ModelOk(m)
    ensures r.Apply? || r == Refuse(NilDereference)
    ensures r.Refuse? <==> m.t.Nil?
    ensures r.Apply? ==> ModelOk(r.m) && r.m.scope == TimezoneScope && r.m.cal == m.cal
    ensures r.Apply? ==> |r.m.arena.timezones| == |m.arena.timezones|
    ensures r.Apply? ==> r.m.arena.timezones[m.t.id].daylights == m.arena.timezones[m.t.id].daylights + [m.d]
  {
    if m.t.Nil? then Refuse(NilDereference)
    else
      var h := m.arena;
      var t := h.timezones[m.t.id];
      assert ZoneFits(t, |h.standards|, |h.daylights|);
      PtrsPush(t.daylights, |h.daylights|, m.d);
      SetZone(h, m.t.id, t.(daylights := t.daylights + [m.d]));
      Apply(m.(scope := TimezoneScope, arena := h.(timezones := h.timezones[m.t.id := t.(daylights := t.daylights + [m.d])])))
  }

  /** `scanDelimiter` apart from the CRLF it reads after every delimiter but
      the two VCALENDAR ones. END:VCALENDAR finishes the parse, but only in
      calendar scope; BEGIN:VCALENDAR does nothing. Every other END returns
      to its parent scope without checking that the scope it closes is the
      one the parser is in. */
  function Delimit(m: Model, delim: Item, zone: Zone, lib: TimeLib): (r: Effect)
    requires ModelOk(m) && delim.typ.ItemDelim?
    ensures r.Finish? <==> delim.typ == ItemDelim(false, VCalendar) && m.scope == CalendarScope
    ensures r.Ignore? <==> delim.typ == ItemDelim(true, VCalendar)
    ensures r.Refuse? && r.failure.Unclosed? <==> delim.typ == ItemDelim(false, VCalendar) && m.scope != CalendarScope
    ensures r.Refuse? && r.failure.Unclosed? ==> r.failure.delim == delim
    ensures r.Refuse? && r.failure == NilDereference <==> DereferencesNil(m, delim.typ)
    ensures r.Refuse? && r.failure.Rejected? <==> RejectedBy(m, delim.typ, zone, lib)
    ensures r.Refuse? ==> r.failure.Unclosed? || r.failure.Rejected? || r.failure == NilDereference
    ensures r.Apply? ==> ModelOk(r.m) && r.m.scope == ScopeAfter(delim.typ, m.scope)
    ensures r.Apply? && delim.typ != ItemDelim(true, VEvent) ==> Header(r.m.cal) == Header(m.cal)
    ensures r.Apply? && delim.typ != ItemDelim(false, VEvent) ==> r.m.cal.events == m.cal.events
  {
    match delim.typ.comp
    case VCalendar =>
      if delim.typ.begin then Ignore
      else if m.scope != CalendarScope then Refuse(Unclosed(delim))
      else Finish
    case VEvent => if delim.typ.begin then BeginEvent(m) else EndEvent(m, zone, lib)
    case VAlarm => if delim.typ.begin then BeginAlarm(m) else EndAlarm(m)
    case VTimezone => if delim.typ.begin then BeginTimezone(m) else EndTimezone(m)
    case StandardTime => if delim.typ.begin then BeginStandard(m) else EndStandard(m)
    case DaylightTime => if delim.typ.begin then BeginDaylight(m) else EndDaylight(m)
  }

  /** The event slot is not cleared at END:VEVENT, so a second END:VEVENT
      appends the same event again, and the caller sees it twice. */
  lemma EventAppendedTwice(m: Model, zone: Zone, lib: TimeLib)
    requires ModelOk(m) && EndEvent(m, zone, lib).Apply?
    requires EndEvent(EndEvent(m, zone, lib).m, zone, lib).Apply?
    ensures var m2 := EndEvent(EndEvent(m, zone, lib).m, zone, lib).m;
      m2.cal.events == m.cal.events + [m.v.id, m.v.id] &&
      Materialize(m2).events[|m.cal.events|] == Materialize(m2).events[|m.cal.events| + 1]
  {
    var m2 := EndEvent(EndEvent(m, zone, lib).m, zone, lib).m;
    assert m2.cal.events == (m.cal.events + [m.v.id]) + [m.v.id];
  }

  /** An alarm closed after its event was appended still reaches the event
      the calendar holds: the calendar keeps a pointer, not a copy. */
  lemma AlarmReachesAppendedEvent(m: Model, i: nat)
    requires ModelOk(m) && EndAlarm(m).Apply?
    requires i < |m.cal.events| && m.cal.events[i] == m.v.id
    ensures var before := Materialize(m).events[i].alarms;
      var after := Materialize(EndAlarm(m).m).events[i].alarms;
      |after| == |before| + 1 && after[|before|] == ValidateAlarm(m.arena.alarms[m.a.id]).value
  {
    var r := EndAlarm(m).m;
    assert r.cal.events[i] == m.v.id;
    assert AlarmValues(r.arena, r.arena.events[m.v.id].alarms)[|m.arena.events[m.v.id].alarms|] == r.arena.alarms[m.a.id];
  }

  /* ---------- the finished tree ---------- */

  function AlarmValues(h: Arena, ids: seq<nat>): (r: seq<Alarm>)
    requires IdsIn(ids, |h.alarms|)
    ensures |r| == |ids| && forall i :: 0 <= i < |ids| ==> r[i] == h.alarms[ids[i]]
  {
    seq(|ids|, i requires 0 <= i < |ids| => h.alarms[ids[i]])
  }

  /** An event as the caller sees it: the arena's event with its alarms. */
  function EventValueOf(h: Arena, id: nat): (r: EventValue)
    requires ArenaOk(h) && id < |h.events|
    ensures var e := h.events[id];
      r == Event(e.properties, AlarmValues(h, e.alarms), e.uid, e.timestamp, e.startDate, e.endDate, e.summary, e.description)
  {
    var e := h.events[id];
    Event(e.properties, AlarmValues(h, e.alarms), e.uid, e.timestamp, e.startDate, e.endDate, e.summary, e.description)
  }

  function Deref<T>(cells: seq<T>, x: Ptr): (r: Option<T>)
    requires PtrIn(x, |cells|)
    ensures r.None? <==> x.Nil?
    ensures r.Some? ==> r.value == cells[x.id]
  {
    if x.Nil? then None else Some(cells[x.id])
  }

  function TimezoneValueOf(h: Arena, x: Ptr): (r: Option<TimezoneValue>)
    requires ArenaOk(h) && PtrIn(x, |h.timezones|)
    ensures r.None? <==> x.Nil?
  {
    if x.Nil? then None
    else
      var t := h.timezones[x.id];
      Some(Timezone(t.properties,
                    seq(|t.standards|, i requires 0 <= i < |t.standards| => Deref(h.standards, t.standards[i])),
                    seq(|t.daylights|, i requires 0 <= i < |t.daylights| => Deref(h.daylights, t.daylights[i]))))
  }

  /** The calendar `parse` returns. The event list holds each appended event
      as it is at the end of the parse, so an event appended twice appears
      twice, and changes made through a slot after the append show. */
  function Materialize(m: Model): (c: CalendarValue)
    requires ModelOk(m)
    ensures c.properties == m.cal.properties && Header(c) == Header(m.cal)
    ensures |c.events| == |m.cal.events| && |c.timezones| == |m.cal.timezones|
    ensures forall i :: 0 <= i < |c.events| ==> c.events[i] == EventValueOf(m.arena, m.cal.events[i])
    ensures forall i :: 0 <= i < |c.timezones| ==> c.timezones[i] == TimezoneValueOf(m.arena, m.cal.timezones[i])
  {
    Calendar(m.cal.properties,
             seq(|m.cal.events|, i requires 0 <= i < |m.cal.events| => EventValueOf(m.arena, m.cal.events[i])),
             seq(|m.cal.timezones|, i requires 0 <= i < |m.cal.timezones| => TimezoneValueOf(m.arena, m.cal.timezones[i])),
             m.cal.prodid, m.cal.version, m.cal.calscale, m.cal.methodName)
  }
}
