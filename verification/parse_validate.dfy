/** Component validation (parse_validate.go): counting rules, and promotion
    of raw properties into the typed fields of the component. No validator
    touches a property list; a failed validation aborts the whole parse, so
    what it promoted before failing is never seen. */
module Validate {
  import opened Util
  import opened Time
  import opened ICalendar
  import opened Dates

  datatype ValidationError =
    | MissingProdidOrVersion
    | DtendWithDuration
    | MissingDtstamp
    | MissingUid
    | MissingDtstart
    | Duplicate
    | MissingActionOrTrigger

  datatype Checked<T> = Valid(value: T) | Invalid(error: ValidationError)

  /* ---------- VCALENDAR (section 3.7 of RFC 5545) ---------- */

  /** The promoting loop of `validateCalendar`, property by property. */
  function PromoteCalendar<E, T>(c: Calendar<E, T>, props: seq<Property>): (r: Calendar<E, T>)
    ensures r == c.(prodid := LastValueOr("PRODID", props, c.prodid),
                    version := LastValueOr("VERSION", props, c.version),
                    calscale := LastValueOr("CALSCALE", props, c.calscale),
                    methodName := LastValueOr("METHOD", props, c.methodName))
    decreases |props|
  {
    if |props| == 0 then c
    else
      var p := props[0];
      var c' :=
        if p.name == "PRODID" then c.(prodid := p.value)
        else if p.name == "VERSION" then c.(version := p.value)
        else if p.name == "CALSCALE" then c.(calscale := p.value)
        else if p.name == "METHOD" then c.(methodName := p.value)
        else c;
      assert props == [p] + props[1..];
      LastPropCons("PRODID", p, props[1..]);
      LastPropCons("VERSION", p, props[1..]);
      LastPropCons("CALSCALE", p, props[1..]);
      LastPropCons("METHOD", p, props[1..]);
      PromoteCalendar(c', props[1..])
  }

  /** `validateCalendar`: the PRODID count plus the VERSION count must be
      exactly 2 (so two PRODIDs and no VERSION also pass); the last PRODID,
      VERSION, CALSCALE and METHOD values are promoted, and a field without
      such a property keeps its value (CALSCALE its "GREGORIAN" default). */
  function ValidateCalendar<E, T>(c: Calendar<E, T>): (r: Checked<Calendar<E, T>>)
    ensures r.Valid? <==> Count("PRODID", c.properties) + Count("VERSION", c.properties) == 2
    ensures r.Invalid? ==> r.error == MissingProdidOrVersion
    ensures r.Valid? ==>
              && r.value.properties == c.properties && r.value.events == c.events && r.value.timezones == c.timezones
              && r.value.prodid == LastValueOr("PRODID", c.properties, c.prodid)
              && r.value.version == LastValueOr("VERSION", c.properties, c.version)
              && r.value.calscale == LastValueOr("CALSCALE", c.properties, c.calscale)
              && r.value.methodName == LastValueOr("METHOD", c.properties, c.methodName)
  {
    var promoted := PromoteCalendar(c, c.properties);
    if Count("PRODID", c.properties) + Count("VERSION", c.properties) != 2 then Invalid(MissingProdidOrVersion)
    else Valid(promoted)
  }

  /* ---------- VEVENT (section 3.6.1 of RFC 5545) ---------- */

  /** Every property of the list can go through `parseDate`. */
  predicate DatesOk(props: seq<Property>)
  {
    forall i :: 0 <= i < |props| ==> DateParamsOk(props[i])
  }

  /** The instant a date property promotes to: the parse of the last such
      property (zero when the library rejects it), or the fallback. */
  function LastDate(name: string, props: seq<Property>, fallback: Instant, zone: Zone, lib: TimeLib): Instant
    requires DatesOk(props)
  {
    match LastProp(name, props)
    case Some(p) =>
      assert p in props;
      ParseDate(p, zone, lib).0
    case None => fallback
  }

  lemma LastDateCons(name: string, p: Property, rest: seq<Property>, fallback: Instant, zone: Zone, lib: TimeLib)
    requires DatesOk([p] + rest)
    ensures DatesOk(rest) && DateParamsOk(p)
    ensures LastDate(name, [p] + rest, fallback, zone, lib) ==
              LastDate(name, rest, if p.name == name then ParseDate(p, zone, lib).0 else fallback, zone, lib)
  {
    assert DateParamsOk(([p] + rest)[0]);
    assert forall i :: 0 <= i < |rest| ==> rest[i] == ([p] + rest)[i + 1];
    LastPropCons(name, p, rest);
  }

  /** The names `validateEvent` counts and requires to occur at most once. */
  const UniqueEventNames: seq<string> := ["UID", "DTSTAMP", "DTSTART", "DTEND", "DURATION", "SUMMARY", "DESCRIPTION"]

  /** The fields an event has after the promoting loop of `validateEvent` has
      run over `props` without failing. */
  function Promoted<A>(v: Event<A>, props: seq<Property>, zone: Zone, lib: TimeLib): Event<A>
    requires DatesOk(props)
  {
    v.(uid := LastValueOr("UID", props, v.uid),
       timestamp := LastDate("DTSTAMP", props, v.timestamp, zone, lib),
       startDate := LastDate("DTSTART", props, v.startDate, zone, lib),
       endDate := LastDate("DTEND", props, v.endDate, zone, lib),
       summary := LastValueOr("SUMMARY", props, v.summary),
       description := LastValueOr("DESCRIPTION", props, v.description))
  }

  /** One turn of the promoting loop of `validateEvent`, for a property
      that does not fail it. */
  function Absorb<A>(v: Event<A>, p: Property, zone: Zone, lib: TimeLib): Event<A>
    requires DateParamsOk(p)
  {
    if p.name == "UID" then v.(uid := p.value)
    else if p.name == "DTSTAMP" then v.(timestamp := ParseDate(p, zone, lib).0)
    else if p.name == "DTSTART" then v.(startDate := ParseDate(p, zone, lib).0)
    else if p.name == "DTEND" then v.(endDate := ParseDate(p, zone, lib).0)
    else if p.name == "SUMMARY" then v.(summary := p.value)
    else if p.name == "DESCRIPTION" then v.(description := p.value)
    else v
  }

  /** Promoting a list is absorbing its first property, then promoting the
      rest: the last occurrence of each name wins. */
  lemma PromotedCons<A>(v: Event<A>, p: Property, rest: seq<Property>, zone: Zone, lib: TimeLib)
    requires DatesOk([p] + rest)
    ensures DatesOk(rest) && DateParamsOk(p)
    ensures Promoted(v, [p] + rest, zone, lib) == Promoted(Absorb(v, p, zone, lib), rest, zone, lib)
  {
    LastDateCons("DTSTAMP", p, rest, v.timestamp, zone, lib);
    LastDateCons("DTSTART", p, rest, v.startDate, zone, lib);
    LastDateCons("DTEND", p, rest, v.endDate, zone, lib);
    LastPropCons("UID", p, rest);
    LastPropCons("SUMMARY", p, rest);
    LastPropCons("DESCRIPTION", p, rest);
  }

  /** The promoting loop of `validateEvent` over `props`, a suffix of the
      event's property list `all`. A DTEND returns an error when `all` holds
      a DURATION, and a DURATION when `all` holds a DTEND. */
  function PromoteEvent<A>(v: Event<A>, props: seq<Property>, all: seq<Property>, zone: Zone, lib: TimeLib): (r: Checked<Event<A>>)
    requires DatesOk(props)
    ensures r.Invalid? <==> (HasProperty("DTEND", props) && HasProperty("DURATION", all)) ||
                            (HasProperty("DURATION", props) && HasProperty("DTEND", all))
    ensures r.Invalid? ==> r.error == DtendWithDuration
    ensures r.Valid? ==> r.value == Promoted(v, props, zone, lib)
    decreases |props|
  {
    if |props| == 0 then Valid(v)
    else
      var p := props[0];
      assert props == [p] + props[1..];
      PromotedCons(v, p, props[1..], zone, lib);
      if p.name == "DTEND" && HasProperty("DURATION", all) then Invalid(DtendWithDuration)
      else if p.name == "DURATION" && HasProperty("DTEND", all) then Invalid(DtendWithDuration)
      else PromoteEvent(Absorb(v, p, zone, lib), props[1..], all, zone, lib)
  }

  /** Two different entries of `props` carry the name. */
  predicate Repeated(name: string, props: seq<Property>)
  {
    exists i, j :: 0 <= i < j < |props| && props[i].name == name && props[j].name == name
  }

  /** A count above one is exactly a name carried by two entries. */
  lemma {:induction false} CountAboveOne(name: string, props: seq<Property>)
    ensures Count(name, props) > 1 <==> Repeated(name, props)
    decreases |props|
  {
    if |props| > 0 {
      var rest := props[1..];
      CountAboveOne(name, rest);
      if props[0].name == name {
        if Count(name, props) > 1 {
          var j :| 0 <= j < |rest| && rest[j].name == name;
          assert props[0].name == name && props[j + 1].name == name;
        }
        if Repeated(name, props) {
          var i, j :| 0 <= i < j < |props| && props[i].name == name && props[j].name == name;
          assert rest[j - 1].name == name;
        }
      } else {
        if Repeated(name, rest) {
          var i, j :| 0 <= i < j < |rest| && rest[i].name == name && rest[j].name == name;
          assert props[i + 1].name == name && props[j + 1].name == name;
        }
        if Repeated(name, props) {
          var i, j :| 0 <= i < j < |props| && props[i].name == name && props[j].name == name;
          assert rest[i - 1].name == name && rest[j - 1].name == name;
        }
      }
    }
  }

  /** The loop over `uniqueCount`: some name of `UniqueEventNames` is
      carried by two properties. */
  function HasDuplicate(props: seq<Property>): (b: bool)
    ensures b <==> exists k :: 0 <= k < |UniqueEventNames| && Repeated(UniqueEventNames[k], props)
  {
    forall k | 0 <= k < |UniqueEventNames| {
      CountAboveOne(UniqueEventNames[k], props);
    }
    exists i :: 0 <= i < |UniqueEventNames| && Count(UniqueEventNames[i], props) > 1
  }

  /** `validateEvent`, with the calendar's METHOD and the default zone. In
      order: DTEND with DURATION fails; a zero DTSTAMP (missing, or rejected
      by the time library) fails unless METHOD is set; an empty UID fails; a
      zero DTSTART fails; a repeated unique name fails. Without a DTEND the
      end is one day after the start. */
  function ValidateEvent<A>(v: Event<A>, methodName: string, zone: Zone, lib: TimeLib): (r: Checked<Event<A>>)
    requires DatesOk(v.properties)
    ensures var props := v.properties;
      var w := Promoted(v, props, zone, lib);
      var bothEnds := HasProperty("DTEND", props) && HasProperty("DURATION", props);
      && (r.Valid? <==> && !bothEnds
                        && !(methodName == "" && IsZero(w.timestamp))
                        && w.uid != ""
                        && !IsZero(w.startDate)
                        && !HasDuplicate(props))
      && (bothEnds ==> r == Invalid(DtendWithDuration))
      && (!bothEnds && methodName == "" && IsZero(w.timestamp) ==> r == Invalid(MissingDtstamp))
      && (r.Valid? ==>
            && r.value.properties == props && r.value.alarms == v.alarms
            && r.value.uid == LastValueOr("UID", props, v.uid)
            && r.value.timestamp == w.timestamp && r.value.startDate == w.startDate
            && r.value.summary == w.summary && r.value.description == w.description
            && r.value.endDate == if HasProperty("DTEND", props) then w.endDate else AddDay(w.startDate))
  {
    match PromoteEvent(v, v.properties, v.properties, zone, lib)
    case Invalid(e) => Invalid(e)
    case Valid(w) =>
      if methodName == "" && IsZero(w.timestamp) then Invalid(MissingDtstamp)
      else if w.uid == "" then Invalid(MissingUid)
      else if IsZero(w.startDate) then Invalid(MissingDtstart)
      else if HasDuplicate(v.properties) then Invalid(Duplicate)
      else if !HasProperty("DTEND", v.properties) then Valid(w.(endDate := AddDay(w.startDate)))
      else Valid(w)
  }

  /* ---------- VALARM (section 3.6.6 of RFC 5545) ---------- */

  /** The promoting loop of `validateAlarm`. */
  function PromoteAlarm(a: Alarm, props: seq<Property>): (r: Alarm)
    ensures r == a.(action := LastValueOr("ACTION", props, a.action),
                    trigger := LastValueOr("TRIGGER", props, a.trigger))
    decreases |props|
  {
    if |props| == 0 then a
    else
      var p := props[0];
      var a' :=
        if p.name == "ACTION" then a.(action := p.value)
        else if p.name == "TRIGGER" then a.(trigger := p.value)
        else a;
      assert props == [p] + props[1..];
      LastPropCons("ACTION", p, props[1..]);
      LastPropCons("TRIGGER", p, props[1..]);
      PromoteAlarm(a', props[1..])
  }

  /** `validateAlarm`: the ACTION count plus the TRIGGER count must be 2,
      and then each at most 1 — so exactly one of each; both are promoted. */
  function ValidateAlarm(a: Alarm): (r: Checked<Alarm>)
    ensures r.Valid? <==> Count("ACTION", a.properties) == 1 && Count("TRIGGER", a.properties) == 1
    ensures r.Invalid? && Count("ACTION", a.properties) + Count("TRIGGER", a.properties) != 2 ==>
              r.error == MissingActionOrTrigger
    ensures r.Valid? ==>
              && r.value.properties == a.properties
              && Some(r.value.action) == LastValue("ACTION", a.properties)
              && Some(r.value.trigger) == LastValue("TRIGGER", a.properties)
  {
    var promoted := PromoteAlarm(a, a.properties);
    var action := Count("ACTION", a.properties);
    var trigger := Count("TRIGGER", a.properties);
    if action + trigger != 2 then Invalid(MissingActionOrTrigger)
    else if action > 1 || trigger > 1 then Invalid(Duplicate)
    else Valid(promoted)
  }
}
