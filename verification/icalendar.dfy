/** The document tree of the reader (icalendar.go).

    Components that hold child components are generic in how a child is
    held: the finished tree holds the children themselves, while the parser's
    arena holds ids (and possibly nil) in their place, which is how the Go
    pointers alias. */
module ICalendar {
  import opened Util
  import opened Time

  /** One parameter of a property: its comma-separated values, in order. */
  datatype Param = Param(values: seq<string>)

  /** An unparsed content line. A map cannot hold a key twice, so parameter
      names are unique by construction. */
  datatype Property = Property(name: string, params: map<string, Param>, value: string)

  datatype Alarm = Alarm(properties: seq<Property>, action: string, trigger: string)

  datatype Event<A> = Event(
    properties: seq<Property>,
    alarms: seq<A>,
    uid: string,
    timestamp: Instant,
    startDate: Instant,
    endDate: Instant,
    summary: string,
    description: string)

  datatype Standard = Standard(properties: seq<Property>)

  datatype Daylight = Daylight(properties: seq<Property>)

  datatype Timezone<S, D> = Timezone(properties: seq<Property>, standards: seq<S>, daylights: seq<D>)

  datatype Calendar<E, T> = Calendar(
    properties: seq<Property>,
    events: seq<E>,
    timezones: seq<T>,
    prodid: string,
    version: string,
    calscale: string,
    methodName: string)

  /** The finished tree. A timezone, standard or daylight slot can be nil in
      the Go code, hence the options. */
  type TimezoneValue = Timezone<Option<Standard>, Option<Daylight>>
  type EventValue = Event<Alarm>
  type CalendarValue = Calendar<EventValue, Option<TimezoneValue>>

  /** The calendar scale a calendar has until a CALSCALE property says otherwise. */
  const Gregorian: string := "GREGORIAN"

  function NewCalendar<E, T>(): (c: Calendar<E, T>)
    ensures c.calscale == Gregorian
    ensures c.prodid == "" && c.version == "" && c.methodName == ""
    ensures |c.properties| == 0 && |c.events| == 0 && |c.timezones| == 0
  {
    Calendar([], [], [], "", "", Gregorian, "")
  }

  function NewProperty(): (p: Property)
    ensures p.name == "" && p.value == ""
    ensures |p.params.Keys| == 0
  {
    Property("", map[], "")
  }

  function NewParam(): (p: Param)
    ensures |p.values| == 0
  {
    Param([])
  }

  function NewEvent<A>(): (v: Event<A>)
    ensures |v.properties| == 0 && |v.alarms| == 0
    ensures v.uid == "" && v.summary == "" && v.description == ""
    ensures IsZero(v.timestamp) && IsZero(v.startDate) && IsZero(v.endDate)
  {
    Event([], [], "", Zero, Zero, Zero, "", "")
  }

  function NewAlarm(): (a: Alarm)
    ensures |a.properties| == 0 && a.action == "" && a.trigger == ""
  {
    Alarm([], "", "")
  }

  function NewTimezone<S, D>(): (t: Timezone<S, D>)
    ensures |t.properties| == 0 && |t.standards| == 0 && |t.daylights| == 0
  {
    Timezone([], [], [])
  }

  function NewStandard(): (s: Standard)
    ensures |s.properties| == 0
  {
    Standard([])
  }

  function NewDaylight(): (d: Daylight)
    ensures |d.properties| == 0
  {
    Daylight([])
  }

  /** `hasProperty(name, properties)`: some property carries that name. */
  function HasProperty(name: string, properties: seq<Property>): (b: bool)
    ensures b <==> exists i :: 0 <= i < |properties| && properties[i].name == name
  {
    if |properties| == 0 then false
    else properties[0].name == name || HasProperty(name, properties[1..])
  }

  /** How many properties carry the name. */
  function Count(name: string, properties: seq<Property>): (n: nat)
    ensures n <= |properties|
    ensures n == 0 <==> !HasProperty(name, properties)
  {
    if |properties| == 0 then 0
    else (if properties[0].name == name then 1 else 0) + Count(name, properties[1..])
  }

  /** The last property carrying the name: the one a loop that overwrites
      on every match leaves behind. */
  function LastProp(name: string, properties: seq<Property>): (r: Option<Property>)
    ensures r.None? <==> !HasProperty(name, properties)
    ensures r.Some? ==> exists i :: 0 <= i < |properties| && properties[i] == r.value && r.value.name == name
                          && forall j :: i < j < |properties| ==> properties[j].name != name
  {
    if |properties| == 0 then None
    else if properties[|properties| - 1].name == name then Some(properties[|properties| - 1])
    else
      var r := LastProp(name, properties[..|properties| - 1]);
      assert HasProperty(name, properties) <==> HasProperty(name, properties[..|properties| - 1]) by {
        assert forall i :: 0 <= i < |properties| - 1 ==> properties[..|properties| - 1][i] == properties[i];
      }
      r
  }

  /** The last property carrying a name is determined by its position. */
  lemma LastPropAt(name: string, properties: seq<Property>, i: nat)
    requires i < |properties| && properties[i].name == name
    requires forall j :: i < j < |properties| ==> properties[j].name != name
    ensures LastProp(name, properties) == Some(properties[i])
  {
  }

  /** Scanning from the front: the last match of `p :: rest` is the last match
      of `rest`, or `p` itself when `rest` has none. */
  lemma LastPropCons(name: string, p: Property, rest: seq<Property>)
    ensures LastProp(name, [p] + rest) ==
              if HasProperty(name, rest) then LastProp(name, rest)
              else if p.name == name then Some(p) else None
  {
    if HasProperty(name, rest) {
      LastPropConsLater(name, p, rest);
    } else {
      LastPropConsHead(name, p, rest);
    }
  }

  lemma LastPropConsLater(name: string, p: Property, rest: seq<Property>)
    requires HasProperty(name, rest)
    ensures LastProp(name, [p] + rest) == LastProp(name, rest)
  {
    var s := [p] + rest;
    var i :| 0 <= i < |rest| && rest[i] == LastProp(name, rest).value && rest[i].name == name
              && forall j :: i < j < |rest| ==> rest[j].name != name;
    assert s[i + 1] == rest[i];
    forall j | i + 1 < j < |s| ensures s[j].name != name { assert s[j] == rest[j - 1]; }
    LastPropAt(name, s, i + 1);
  }

  lemma LastPropConsHead(name: string, p: Property, rest: seq<Property>)
    requires !HasProperty(name, rest)
    ensures LastProp(name, [p] + rest) == if p.name == name then Some(p) else None
  {
    var s := [p] + rest;
    forall j | 0 < j < |s| ensures s[j].name != name { assert s[j] == rest[j - 1]; }
    if p.name == name {
      LastPropAt(name, s, 0);
    } else {
      assert !HasProperty(name, s);
    }
  }

  /** The value of the last property carrying the name. */
  function LastValue(name: string, properties: seq<Property>): (r: Option<string>)
    ensures r.None? <==> !HasProperty(name, properties)
    ensures r.Some? ==> exists i :: 0 <= i < |properties| && properties[i].name == name && properties[i].value == r.value
                          && forall j :: i < j < |properties| ==> properties[j].name != name
  {
    match LastProp(name, properties)
    case Some(p) => Some(p.value)
    case None => None
  }

  /** `LastValue`, or the given fallback when no property carries the name. */
  function LastValueOr(name: string, properties: seq<Property>, fallback: string): string
  {
    match LastValue(name, properties)
    case Some(s) => s
    case None => fallback
  }
}
