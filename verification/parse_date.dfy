/** Date resolution (`parseDate`, parse.go:403-436): which layout and which
    zone a DATE or DATE-TIME value (sections 3.3.4 and 3.3.5 of RFC 5545) is
    read with, decided from the 'Z' suffix, the TZID parameter (section
    3.2.19), the value's length and the VALUE parameter (section 3.2.20). */
module Dates {
  import opened Util
  import opened Runes
  import opened Time
  import opened ICalendar

  /** `parseDate` (parse.go) reads the first value of TZID and VALUE without checking
      that one exists; the parser never builds a parameter without one. */
  predicate DateParamsOk(prop: Property)
  {
    && ("TZID" in prop.params ==> |prop.params["TZID"].values| > 0)
    && ("VALUE" in prop.params ==> |prop.params["VALUE"].values| > 0)
  }

  /** The zone TZID names, or UTC when the library does not know it. */
  function TzidZone(name: string, lib: TimeLib): (z: Zone)
    ensures lib.loadLocation(name).Some? ==> z == lib.loadLocation(name).value
    ensures lib.loadLocation(name).None? ==> z == Utc
  {
    match lib.loadLocation(name)
    case Some(z) => z
    case None => Utc
  }

  /** The layout and zone `parseDate` hands to the time library, by priority:
      a 'Z' suffix means UTC; else a TZID means local time in that zone (UTC
      if unknown); else a value of 8 bytes (`len` counts bytes) is a date in
      the default zone, even under VALUE=DATE-TIME; else VALUE=DATE means a date and anything
      else a local date-time, both in the default zone. */
  function ChooseLayout(prop: Property, zone: Zone, lib: TimeLib): (r: (Layout, Zone))
    requires DateParamsOk(prop)
    ensures HasSuffix(prop.value, "Z") ==> r == (DateTimeUtcLayout, Utc)
    ensures !HasSuffix(prop.value, "Z") && "TZID" in prop.params ==>
              r == (DateTimeLocalLayout, TzidZone(prop.params["TZID"].values[0], lib))
    ensures !HasSuffix(prop.value, "Z") && "TZID" !in prop.params && Utf8Length(prop.value) == 8 ==>
              r == (DateLayout, zone)
    ensures !HasSuffix(prop.value, "Z") && "TZID" !in prop.params && Utf8Length(prop.value) != 8 ==>
              r.1 == zone && r.0 != DateTimeUtcLayout &&
              (r.0 == DateLayout <==> "VALUE" in prop.params && prop.params["VALUE"].values[0] == "DATE")
  {
    if HasSuffix(prop.value, "Z") then (DateTimeUtcLayout, Utc)
    else if "TZID" in prop.params then (DateTimeLocalLayout, TzidZone(prop.params["TZID"].values[0], lib))
    else if Utf8Length(prop.value) == 8 then (DateLayout, zone)
    else
      var layout :=
        if "VALUE" in prop.params then
          (match prop.params["VALUE"].values[0]
           case "DATE" => DateLayout
           case "DATE-TIME" => DateTimeLocalLayout
           case _ => DateTimeLocalLayout)
        else DateTimeLocalLayout;
      (layout, zone)
  }

  /** `parseDate`: the instant and whether the library accepted the value; a
      rejected value yields the zero instant, as `time.Parse` does. */
  function ParseDate(prop: Property, zone: Zone, lib: TimeLib): (r: (Instant, bool))
    requires DateParamsOk(prop)
    ensures var (layout, z) := ChooseLayout(prop, zone, lib);
      (r.1 <==> lib.parseIn(layout, prop.value, z).Some?) &&
      (r.1 ==> r.0 == lib.parseIn(layout, prop.value, z).value) &&
      (!r.1 ==> r.0 == Zero)
  {
    var (layout, z) := ChooseLayout(prop, zone, lib);
    ParseOrZero(lib, layout, prop.value, z)
  }

  /** A value of more than 8 characters has more than 8 bytes, so only the
      suffix, TZID and VALUE decide its layout. */
  lemma LongValueLayout(prop: Property, zone: Zone, lib: TimeLib)
    requires DateParamsOk(prop) && |prop.value| > 8
    ensures ChooseLayout(prop, zone, lib) ==
              if HasSuffix(prop.value, "Z") then (DateTimeUtcLayout, Utc)
              else if "TZID" in prop.params then (DateTimeLocalLayout, TzidZone(prop.params["TZID"].values[0], lib))
              else if "VALUE" in prop.params && prop.params["VALUE"].values[0] == "DATE" then (DateLayout, zone)
              else (DateTimeLocalLayout, zone)
  {
  }

  /* One lemma per row of parse_test.go's `parseDate` table. */

  lemma DateCase(zone: Zone, lib: TimeLib)
    ensures ChooseLayout(Property("DTSTART", map["VALUE" := Param(["DATE"])], "19980119"), zone, lib) == (DateLayout, zone)
  {
    EightCharactersWin(Property("DTSTART", map["VALUE" := Param(["DATE"])], "19980119"), zone, lib);
  }

  lemma TzidCase(zone: Zone, lib: TimeLib)
    ensures ChooseLayout(Property("DTSTART", map["TZID" := Param(["America/New_York"])], "19980119T020000"), zone, lib)
              == (DateTimeLocalLayout, TzidZone("America/New_York", lib))
  {
    HasSuffixChar("19980119T020000", 'Z');
    LongValueLayout(Property("DTSTART", map["TZID" := Param(["America/New_York"])], "19980119T020000"), zone, lib);
  }

  lemma LocalCase(zone: Zone, lib: TimeLib)
    ensures ChooseLayout(Property("DSTART", map[], "19980119T020000"), zone, lib) == (DateTimeLocalLayout, zone)
  {
    HasSuffixChar("19980119T020000", 'Z');
    LongValueLayout(Property("DSTART", map[], "19980119T020000"), zone, lib);
  }

  lemma UtcCase(zone: Zone, lib: TimeLib)
    ensures ChooseLayout(Property("DSTART", map[], "19980119T070000Z"), zone, lib) == (DateTimeUtcLayout, Utc)
  {
    HasSuffixChar("19980119T070000Z", 'Z');
    LongValueLayout(Property("DSTART", map[], "19980119T070000Z"), zone, lib);
  }

  lemma DateTimeCase(zone: Zone, lib: TimeLib)
    ensures ChooseLayout(Property("DSTART", map["VALUE" := Param(["DATE-TIME"])], "19980119T070000"), zone, lib)
              == (DateTimeLocalLayout, zone)
  {
    HasSuffixChar("19980119T070000", 'Z');
    LongValueLayout(Property("DSTART", map["VALUE" := Param(["DATE-TIME"])], "19980119T070000"), zone, lib);
  }

  lemma UnknownTzidCase(zone: Zone, lib: TimeLib)
    ensures lib.loadLocation("Z").None? ==>
              ChooseLayout(Property("DTSTART", map["TZID" := Param(["Z"])], "19980119T020000"), zone, lib)
              == (DateTimeLocalLayout, Utc)
  {
    HasSuffixChar("19980119T020000", 'Z');
    LongValueLayout(Property("DTSTART", map["TZID" := Param(["Z"])], "19980119T020000"), zone, lib);
  }

  /** The cases of parse_test.go's `parseDate` table, whatever the time
      library does. */
  lemma ParseDateCases(zone: Zone, lib: TimeLib)
    ensures ChooseLayout(Property("DTSTART", map["VALUE" := Param(["DATE"])], "19980119"), zone, lib) == (DateLayout, zone)
    ensures ChooseLayout(Property("DTSTART", map["TZID" := Param(["America/New_York"])], "19980119T020000"), zone, lib)
              == (DateTimeLocalLayout, TzidZone("America/New_York", lib))
    ensures ChooseLayout(Property("DSTART", map[], "19980119T020000"), zone, lib) == (DateTimeLocalLayout, zone)
    ensures ChooseLayout(Property("DSTART", map[], "19980119T070000Z"), zone, lib) == (DateTimeUtcLayout, Utc)
    ensures ChooseLayout(Property("DSTART", map["VALUE" := Param(["DATE-TIME"])], "19980119T070000"), zone, lib)
              == (DateTimeLocalLayout, zone)
    ensures lib.loadLocation("Z").None? ==>
              ChooseLayout(Property("DTSTART", map["TZID" := Param(["Z"])], "19980119T020000"), zone, lib)
              == (DateTimeLocalLayout, Utc)
  {
    DateCase(zone, lib);
    TzidCase(zone, lib);
    LocalCase(zone, lib);
    UtcCase(zone, lib);
    DateTimeCase(zone, lib);
    UnknownTzidCase(zone, lib);
  }

  /** An 8-character ASCII value, such as a DATE, is read as a date in the
      default zone whatever VALUE says, DATE-TIME included. */
  lemma EightCharactersWin(prop: Property, zone: Zone, lib: TimeLib)
    requires DateParamsOk(prop) && "TZID" !in prop.params
    requires |prop.value| == 8 && Ascii(prop.value) && prop.value[7] != 'Z'
    ensures ChooseLayout(prop, zone, lib) == (DateLayout, zone)
  {
    AsciiLength(prop.value);
    HasSuffixChar(prop.value, 'Z');
  }

  /** The length test counts bytes: four two-byte characters are a date,
      eight of them are not. */
  lemma WideValueLayouts(zone: Zone, lib: TimeLib)
    ensures ChooseLayout(Property("DTSTART", map[], "\U{E9}\U{E9}\U{E9}\U{E9}"), zone, lib) == (DateLayout, zone)
    ensures ChooseLayout(Property("DTSTART", map["VALUE" := Param(["DATE-TIME"])],
                                  "\U{E9}\U{E9}\U{E9}\U{E9}\U{E9}\U{E9}\U{E9}\U{E9}"), zone, lib)
              == (DateTimeLocalLayout, zone)
  {
    var four := "\U{E9}\U{E9}\U{E9}\U{E9}";
    var eight := four + four;
    Utf8Uniform(four, 2);
    HasSuffixChar(four, 'Z');
    Utf8Uniform(eight, 2);
    HasSuffixChar(eight, 'Z');
  }
}
