# An iCalendar reader, modelled in Dafny

This project models the pipeline of a small Go library that reads iCalendar text
(RFC 5545) into a `Calendar` value. It models what the Go code does, including
where that departs from the RFC. The pipeline has five stages:

1. **Unfolding** (`Unfolding`, unfold.dfy). One left-to-right pass deletes every
   CRLF that is followed by a single SPACE or HTAB.
2. **Scanning** (`Runes`, `Items`, `Lex`).
   - The scanner has six states: `lexName`, `lexContentLine`, `lexParamName`,
     `lexParamValue`, `lexValue` and `lexNewLine`.
   - `Lex.Step` is one call of a state function. `Lex.Run` collects every token
     of a scan and then a *tail*: the channel closes, the scanner loops forever,
     or the scanner crashes.
   - `Lex.Next` is the pull-based view the parser has of the channel.
3. **Parsing** (`ParserState`, `Scopes`, `Parsing`, `ContentLines`, `Reader`).
   - The parser is recursive descent with a one-token push-back. It keeps a
     single scope and five nullable slots: the current event, alarm, timezone,
     standard and daylight component.
   - Go pointers alias, so every component lives in an arena. The slots and the
     parents' child lists hold ids into that arena, or nil.
   - `Scopes.Materialize` reads the finished tree back out of the arena.
4. **Validation** (`Validate`). These are the counting rules of
   `validateCalendar`, `validateEvent` and `validateAlarm`. They also promote
   raw properties into the typed fields.
5. **Date resolution** (`Dates`). `parseDate` chooses a layout and a zone. The
   time library itself is a parameter (`Time.TimeLib`).

A parse ends in one of four outcomes (`Reader.Outcome`):

- a calendar;
- an error the caller receives;
- a panic (a nil dereference, or a crash of the scanner);
- a hang, because the scanner loops forever and the parser waits for a token.

The model keeps these behaviours of the Go code, each stated and proved:

- **Unfolding is not idempotent.** `"\r\r\n \n "` unfolds to `"\r\n "`, which
  unfolds to `""` (`Unfolding.UnfoldNotIdempotent`).
- **The scanner drops the result of `errorf` twice.**
  - A line without CRLF gets an error token, yet the scanner still skips two
    characters and emits a line end.
  - A quoted parameter value without a closing quote gets an error token, and
    scanning goes on.
- **A missing CRLF with fewer than two bytes left crashes the scanner.**
  Skipping two bytes then slices out of range. One ASCII character left is
  too few, one multi-byte character is not (`Lex.LexNewLineStep`).
- **A parameter value that runs to the end of the input never terminates.**
  The end-of-input rune counts as a (quoted-)safe character
  (`Lex.LexParamValueStep`).
- **Only END:VCALENDAR checks the scope.** Every other END sets a fixed parent
  scope without checking the scope it closes (`Scopes.Delimit`).
- **A second END:VEVENT appends the same event again** (`Scopes.EventAppendedTwice`).
- **An alarm can reach an event after that event was appended.** The calendar
  holds a pointer to the event, not a copy (`Scopes.AlarmReachesAppendedEvent`).
- **The calendar is validated only at BEGIN:VEVENT.** A calendar without events
  keeps the header fields of `NewCalendar`, whatever properties it has
  (`Reader.CalendarWithoutEvents`).
- **A line that starts with a delimiter keyword is no property.** The
  keywords are tested as bare prefixes, so `BEGIN:VEVENTS` scans as the
  delimiter `BEGIN:VEVENT`, an error token and a line end
  (`LineText.VEventsIsNoProperty`).
- **The parser never reads past the first error token**
  (`Reader.StopsAtFirstError`). A successful parse is therefore delivered even
  when the scanner crashes after its last token (`Reader.SuccessIsDelivered`).

Property lines are checked in both directions:

- Each parsing function states what it consumed and how it fails.
- `ContentLines` writes a property line as the scanner's tokens
  (`ContentLines.LineTokens`).
- It then proves that the parser reads back exactly the property that line
  spells (`ContentLines.ContentLineRead`).
- `LineText` writes the same line as text, `NAME;P=v1,v2:VALUE` and CRLF
  (`LineText.LineText`). It proves that the scanner turns that text into
  exactly those tokens (`LineText.LineLexed`), so text, scanner and parser
  together read the property back (`LineText.TextLineRead`).

## Model

| member | source | states |
|---|---|---|
| ICalendar.NewCalendar | icalendar.go:67-75 | a new calendar has the "GREGORIAN" scale, empty PRODID, VERSION and METHOD, and no properties, events or timezones |
| ICalendar.NewProperty | icalendar.go:78-82 | a new property has an empty name, an empty value and an empty parameter map |
| ICalendar.NewParam | icalendar.go:85-89 | a new parameter has no values |
| ICalendar.NewEvent | icalendar.go:92-97 | a new event has no properties and no alarms, empty text fields, and zero timestamp, start and end |
| ICalendar.NewAlarm | icalendar.go:100-104 | a new alarm has no properties and an empty action and trigger |
| ICalendar.NewTimezone | icalendar.go:107-111 | a new timezone has no properties, standards or daylights |
| ICalendar.NewDaylight | icalendar.go:114-118 | a new daylight component has no properties |
| ICalendar.NewStandard | icalendar.go:121-125 | a new standard component has no properties |
| ICalendar.HasProperty | parse.go:394-401 | true exactly when some property in the list has the name |
| ICalendar.Count | parse_validate.go:96-100 | the number of properties with the name is at most the list length, and zero exactly when `hasProperty` is false |
| ICalendar.LastProp | parse_validate.go:11-29 | the property a loop that overwrites on every match leaves behind: none exactly when the name is absent, otherwise a property with the name and no later one |
| ICalendar.LastPropAt | parse_validate.go:11-29 | a property with the name and no later match is the last match |
| ICalendar.LastPropCons | parse_validate.go:11-29 | scanning from the front, the first property wins only when the rest has no match |
| ICalendar.LastValue | parse_validate.go:11-29 | absent exactly when no property has the name; otherwise the value of a property with the name after which no property has it |
| Time.AddDay | parse_validate.go:102-104 | adding 24 hours keeps the location, moves exactly one day of ticks, and never leaves a zero time at zero |
| Time.ParseOrZero | parse.go:404-436 | a failed library parse gives the zero time and false; a successful one gives the library's instant and true |
| Runes.IsName | lex_helper.go:10-12 | a name character is never the end-of-input rune, a control character, '"', ';', ':', ',', '=', CR or LF |
| Runes.IsQSafeChar | lex_helper.go:14-16 | rejects exactly control characters and '"'; accepts the end-of-input rune and every name character |
| Runes.IsSafeChar | lex_helper.go:18-20 | exactly the quoted-safe characters other than ';', ':' and ','; accepts the end-of-input rune |
| Runes.IsValueChar | lex_helper.go:22-24 | accepts tab and every valid code point that is not a control character; rejects every other control character, CR and LF among them, and the end-of-input rune |
| Runes.Utf8Width | lex.go:110-119 | the UTF-8 encoding of a code point takes one to four bytes, and one exactly for ASCII |
| Items.Code | lex.go:9-43 | the `iota` value of each token type lies below 24 |
| Items.CodesAreFaithful | lex.go:9-43 | codes are injective, code 0 is exactly the error type, and the types above `itemKeyword` are exactly the delimiters |
| Items.DelimiterCodes | lex.go:30-43 | every code from 12 to 23 belongs to a delimiter type |
| Items.IsItemName | lex_helper.go:29-31 | true exactly for the `itemName` code, never for a delimiter |
| Items.Render | lex_item.go:20-32 | EOF renders as "EOF", an error as its message, a delimiter as its text in angle brackets; any other value is quoted whole when it has at most 10 bytes, and otherwise its first 10 characters (all of them when fewer) are quoted and followed by "..." |
| Items.AsciiRender | lex_item.go:28-29 | for an ASCII value the "..." appears exactly when it has more than 10 characters, and then the first 10 are shown |
| Items.WideValueRender | lex_item.go:28-29 | six two-byte characters are shown whole and still followed by "...", because the test counts 12 bytes |
| Lex.RuneAt | lex.go:110-119 | the character at the index, or the end-of-input rune past the end |
| Lex.Span | lex.go:342-358 | the end of the longest run of characters of one class |
| Lex.Absorb | lex.go:342-358 | a greedy loop stops at the end of the longest run, and loops forever exactly when its class holds the end-of-input rune and the run reaches the end |
| Lex.MatchKeyword | lex.go:222-340 | the first keyword the text starts with, or none when no keyword prefixes it |
| Lex.KeywordDetermined | lex.go:222-340 | the keyword a text starts with is fixed by its first letters |
| Lex.KeywordUnique | lex.go:222-340 | no text starts with two different keywords, so the order of the tests does not matter |
| Lex.KeywordAt | lex.go:222-340 | some keyword prefixes the remaining input exactly when the result is present, and then it is the only one |
| Lex.Emit | lex.go:95-102 | the token has the given type and spans the input from the pending start up to the position |
| Lex.LexDelimiter | lex.go:222-340 | a keyword at the line start emits exactly that delimiter, with the keyword text, and moves to `lexNewLine` after it |
| Lex.LexNameRun | lex.go:342-364 | otherwise the name token is the longest run of name characters, possibly empty, and scanning moves to `lexContentLine` |
| Lex.LexNameStep | lex.go:216-365 | `lexName` always emits one token and goes on |
| Lex.LexContentLineStep | lex.go:172-186 | ';', ',' and ':' emit their token and move to parameter name, parameter value and value; anything else emits one error token and halts |
| Lex.ExpectEqual | lex.go:385-390 | an '=' is emitted and leads to `lexParamValue`; anything else gives an error token and a halt |
| Lex.LexParamNameStep | lex.go:373-391 | the longest run of name characters, then '=' or an error token and a halt |
| Lex.CloseQuote | lex.go:416-421 | a closing quote is skipped; its absence emits an error token and scanning resumes after the offending character |
| Lex.LexQuotedValue | lex.go:401-421 | the value token excludes both quotes; the scan loops forever exactly when the quoted-safe run reaches the end |
| Lex.LexUnquotedValue | lex.go:422-436 | the value token is the longest run of safe characters; the scan loops forever exactly when that run reaches the end |
| Lex.LexParamValueStep | lex.go:400-437 | a parameter value loops forever exactly when its run reaches the end of the input |
| Lex.LexValueStep | lex.go:443-456 | the value token is the longest run of value characters, then `lexNewLine` |
| Runes.Utf8Length | lex.go:198 | a text takes at least as many bytes as it has characters |
| Runes.Utf8Uniform | lex.go:198 | a text whose characters all take w bytes takes w bytes per character |
| Runes.AsciiLength | lex_item.go:28 | a text has as many bytes as characters exactly when it is ASCII |
| Lex.BytesBelowTwo | lex.go:198 | fewer than two bytes are left exactly when nothing is left or a single ASCII character is |
| Lex.CrlfSkip | lex.go:198 | skipping two bytes passes two characters when the first is ASCII, and one multi-byte character otherwise |
| Lex.LineEndAt | lex.go:198-207 | the line end covers the skipped characters whatever they are, and EOF follows when they end the input |
| Lex.LexNewLineStep | lex.go:189-208 | at the end: halt without EOF; on CRLF: a line end (then EOF when the input is done); otherwise an error token, then a crash exactly when fewer than two bytes remain, or else a line end over the skipped characters |
| Lex.Step | lex.go:87-92 | a step that goes on emits a token and lowers the measure, a crash leaves exactly one error token, and a step diverges exactly in `lexParamValue` when the run reaches the end |
| Lex.Run | lex.go:87-92 | every non-error token carries its own text from the input, and a crashed scan ends with an error token |
| Lex.Lex | lex.go:77-84 | the same for a scan started in `lexName` at index 0 |
| Lex.Next | lex.go:145-152 | a received token leaves a valid cursor |
| Lex.NextFollowsRun | lex.go:145-152 | receiving one token at a time yields the tokens of a complete scan in order, then the zero token forever, no answer, or the crash |
| Unfolding.Unfold | parse.go:55-57 | unfolding never lengthens the text |
| Unfolding.UnfoldLength | parse.go:55-57 | unfolding deletes exactly three characters per fold |
| Unfolding.FoldsNone | parse.go:55-57 | the fold count is zero exactly when no fold starts anywhere in the text |
| Unfolding.UnfoldIdentity | parse.go:55-57 | a text is unchanged exactly when it holds no fold |
| Unfolding.UnfoldSplice | parse.go:55-57 | a fold is deleted whole wherever it sits, and the text on each side unfolds on its own |
| Unfolding.UnfoldExamples | parse_test.go:13-30 | "1\r\n 2\r\n 3" and "1\r\n\t2\r\n\t3" both unfold to "123" |
| Unfolding.UnfoldNotIdempotent | parse.go:55-57 | unfolding twice can differ from unfolding once |
| ParserState.Initial | parse.go:30-32 | the parser starts in calendar scope with a new calendar, no slots and no token read |
| ParserState.Next | parse.go:60-67 | a pushed-back token is returned again; otherwise the next token, the zero token once the channel is closed, or no answer from a hung or crashed scanner |
| ParserState.Backup | parse.go:70-72 | pushing back un-consumes exactly one token and changes nothing else |
| ParserState.NextAfterBackup | parse.go:60-72 | a read after a push-back yields the same token and state as the read before it |
| ParserState.Expect | parse.go:119-125 | a read of the wanted type consumes one token; any other token fails with the token found and what was wanted |
| Scopes.AddProperty | parse.go:316-331 | the property is appended to the component of the current scope, and every other component, slot and field is unchanged |
| Scopes.BeginEvent | parse.go:142-153 | the calendar is validated first and refused if invalid; otherwise a fresh event fills the slot and the scope is event |
| Scopes.EndEvent | parse.go:155-170 | a nil slot panics, an invalid event is refused, otherwise the validated event is appended by reference and the scope is calendar |
| Scopes.BeginAlarm | parse.go:246-253 | a fresh alarm fills the slot and the scope is alarm |
| Scopes.EndAlarm | parse.go:255-266 | a nil alarm panics, an invalid alarm is refused, a valid alarm with no event panics, otherwise it is appended to the event's alarms |
| Scopes.BeginTimezone | parse.go:172-183 | a fresh timezone fills the slot and the scope is timezone |
| Scopes.EndTimezone | parse.go:185-200 | the slot, nil or not, is appended to the calendar's timezones and the scope is calendar |
| Scopes.BeginStandard | parse.go:202-211 | a fresh standard fills the slot and the scope is standard |
| Scopes.EndStandard | parse.go:213-222 | a nil timezone panics; otherwise the standard slot is appended to the timezone and the scope is timezone |
| Scopes.BeginDaylight | parse.go:224-233 | a fresh daylight fills the slot and the scope is daylight |
| Scopes.EndDaylight | parse.go:235-244 | a nil timezone panics; otherwise the daylight slot is appended to the timezone and the scope is timezone |
| Scopes.Delimit | parse.go:141-276 | END:VCALENDAR finishes exactly in calendar scope and is refused elsewhere; BEGIN:VCALENDAR does nothing; every other delimiter sets the fixed scope, whatever the current one; the panics and refusals are exactly the nil and validation cases |
| Scopes.RejectedBy | parse_validate.go:140-150 | only event delimiters and END:VALARM can fail validation; timezone, standard and daylight delimiters never do (`Scopes.Delimit` refuses for validation exactly when this holds) |
| Scopes.ScopeAfter | parse.go:85-97 | the VCALENDAR delimiters keep the scope; any other BEGIN enters the scope of its component; any other END enters the scope of the component that contains it (RFC 5545 section 3.6), whatever scope it closes |
| Scopes.EventAppendedTwice | parse.go:155-170 | two END:VEVENT in a row append the same event twice, and the caller sees two equal events |
| Scopes.AlarmReachesAppendedEvent | parse.go:255-266 | an alarm closed after its event was appended shows up in the calendar's copy of that event |
| Scopes.Materialize | parse.go:137 | the returned calendar holds every appended event and timezone as it stands at the end of the parse |
| Validate.PromoteCalendar | parse_validate.go:11-29 | the promoting loop leaves the last PRODID, VERSION, CALSCALE and METHOD values, and the old field where none occurs |
| Validate.ValidateCalendar | parse_validate.go:9-36 | valid exactly when the PRODID count plus the VERSION count is 2; the property and child lists are untouched |
| Validate.PromotedCons | parse_validate.go:42-82 | the event loop absorbs properties front to back, so the last occurrence of each name wins |
| Validate.PromoteEvent | parse_validate.go:42-82 | the loop fails exactly when a DTEND meets a DURATION anywhere in the list, in either order; otherwise it leaves the promoted fields |
| Validate.ValidateEvent | parse_validate.go:39-107 | valid exactly when there is no DTEND with DURATION, a DTSTAMP unless METHOD is set, a UID, a DTSTART, and no repeated unique name; without DTEND the end is one day after the start |
| Validate.PromoteAlarm | parse_validate.go:113-125 | the alarm loop leaves the last ACTION and TRIGGER values |
| Validate.ValidateAlarm | parse_validate.go:110-138 | valid exactly when there is one ACTION and one TRIGGER, whose values are promoted |
| Validate.CountAboveOne | parse_validate.go:96-100 | a name counts more than once exactly when two different properties carry it |
| Validate.HasDuplicate | parse_validate.go:96-100 | true exactly when some name of the unique list is carried by two different properties |
| Dates.TzidZone | parse.go:410-415 | the zone the library loads for the TZID name, or UTC when the library cannot load it |
| Dates.ChooseLayout | parse.go:404-436 | 'Z' means UTC; otherwise TZID means local time in that zone, or UTC when the zone is unknown; otherwise a value of 8 bytes means a date in the default zone; otherwise VALUE=DATE means a date, and anything else a local date-time |
| Dates.ParseDate | parse.go:404-436 | the library's instant for the chosen layout and zone, or the zero instant when the library rejects the value |
| Dates.ParseDateCases | parse_test.go:45-155 | the layout and zone chosen for each case of parse_test.go's table |
| Dates.LongValueLayout | parse.go:404-436 | a value of more than 8 characters is never taken for a date by its length: only the suffix, TZID and VALUE decide |
| Dates.EightCharactersWin | parse.go:420-422 | an 8-character ASCII value without TZID is read as a date in the default zone, whatever VALUE says, DATE-TIME included |
| Dates.WideValueLayouts | parse.go:420-422 | the length test counts bytes: four two-byte characters are a date, eight of them under VALUE=DATE-TIME are a local date-time |
| Parsing.ScanValues | parse.go:366-391 | at least one parameter value; the token after the last one is pushed back; a failure names a parameter value |
| Parsing.ScanMoreValues | parse.go:375-390 | values after commas until a token that is not a comma, which is pushed back |
| Parsing.ScanParam | parse.go:345-361 | a parameter name, '=' and at least one value, or a failure naming one of these |
| Parsing.ScanParams | parse.go:336-363 | any number of parameters, each with values, then the next token pushed back |
| Parsing.ParamMap | parse.go:361 | the keys of the parameter map are exactly the names written |
| Parsing.ParamMapLastWins | parse.go:361 | a repeated parameter name keeps the values of its last entry |
| Parsing.ParamMapWellFormed | parse.go:357-361 | every parameter the parser builds has at least one value |
| Parsing.ValueLineEnd | parse.go:304-314 | a value token then a line end; a missing line end is reported with the name token, not the token found |
| Parsing.ScanLineEnd | parse.go:300-314 | ':', a value and a line end, three tokens in all |
| Parsing.ScanProperty | parse.go:293-314 | the property has the line's name, the value before its line end, and well-formed parameters |
| Parsing.ScanDelimiter | parse.go:141-276 | the delimiter's effect, then a line end after every delimiter but the two VCALENDAR ones; END:VCALENDAR in calendar scope stops and reads no further token |
| Parsing.PropertyLine | parse.go:316-331 | a property line leaves the scope and the calendar header alone |
| Parsing.ScanContentLine | parse.go:279-333 | a content line consumes at least one token and no error token; it stops only on END:VCALENDAR in calendar scope; only BEGIN:VEVENT can change the header |
| ContentLines.ValuesRead | parse.go:366-391 | the tokens of a value list are read back as exactly those values, in order |
| ContentLines.MoreValuesRead | parse.go:375-390 | the tokens of the values after the first are read back in order |
| ContentLines.ParamRead | parse.go:345-361 | the tokens of one parameter are read back as exactly that name and those values |
| ContentLines.ParamsRead | parse.go:336-363 | the tokens of a parameter list are read back as exactly those entries, in order |
| ContentLines.LineEndRead | parse.go:300-314 | ':', a value and a line end are read back as that value |
| ContentLines.PropertyRead | parse.go:293-314 | the tokens after a name are read back as the property they spell |
| ContentLines.PropertyLineRead | parse.go:316-331 | the property read goes to the model unchanged |
| ContentLines.LineRead | parse.go:279-331 | a written property line starts with its name token, and the rest is read back as the property it spells |
| ContentLines.ContentLineRead | parse.go:279-333 | a property line written as tokens is read in any scope as exactly its property, added to the current component, with the parser just after the line |
| LineText.NameStep | lex.go:342-364 | `lexName` on a name that no keyword starts emits exactly that name and moves to `lexContentLine` after it |
| LineText.PunctStep | lex.go:172-186 | ';', ',' and ':' emit exactly their token and move to `lexParamName`, `lexParamValue` and `lexValue` |
| LineText.ParamNameStep | lex.go:373-391 | a parameter name followed by '=' emits the name and '=' and moves to `lexParamValue` |
| LineText.ParamValueStep | lex.go:400-437 | an unquoted value ended by ',', ';' or ':' emits exactly that value and moves to `lexContentLine` |
| LineText.ValueStep | lex.go:443-456 | a value ended by CR emits exactly that value and moves to `lexNewLine` |
| LineText.CrlfStep | lex.go:189-208 | CRLF emits a line end, then EOF when the input ends there, and otherwise moves to `lexName` after it |
| LineText.LineScan | lex.go:172-456 | any scan that does what the single steps do turns a property line's text into the line's tokens, followed by EOF or the scan of the next line |
| LineText.LineLexed | lex.go:172-456 | the scanner, started at a property line's text, emits exactly the line's tokens with their texts, then EOF when the input ends there, otherwise the scan of the next line |
| LineText.TextLineRead | parse.go:279-333 | a property line's text, scanned and then parsed in any scope, adds exactly the property it spells to the current component, with the parser just after the line |
| LineText.DelimiterWins | lex.go:216-340 | wherever a keyword starts a line, even as a prefix of a longer word, `lexName` emits that delimiter and moves to `lexNewLine` right after it |
| LineText.MissingCrlfStep | lex.go:189-208 | no CR before an ASCII character: an error token, a line end over the next two characters, and the scan goes on in `lexName` |
| LineText.KeywordPrefixWins | lex.go:189-340 | a text that starts with a keyword and goes on with an ASCII character other than CR scans as the delimiter, an error token and a line end |
| LineText.VEventsIsNoProperty | lex.go:189-340 | `BEGIN:VEVENTS` scans as `BEGIN:VEVENT`, an error token and a line end |
| Reader.ParseLines | parse.go:127-135 | a successful loop stops on an END:VCALENDAR token, back in calendar scope |
| Reader.LinesSucceed | parse.go:127-135 | a successful loop ends in calendar scope with a well-formed model and no error token read |
| Reader.LinesFail | parse.go:127-135 | a failing loop read no error token before its last token |
| Reader.NoEventKeepsHeader | parse.go:127-135 | without BEGIN:VEVENT the loop leaves the header fields alone |
| Reader.OpenCalendar | parse.go:119-125 | the first two tokens must be BEGIN:VCALENDAR and a line end |
| Reader.ParseTokens | parse.go:118-138 | a successful parse ends on END:VCALENDAR with a well-formed model and no error token read; a failed one read no error token before its last |
| Reader.CalendarOpens | parse.go:119-125 | a calendar that parses starts with BEGIN:VCALENDAR and a line end |
| Reader.CalendarCloses | parse.go:268-273 | the last token a successful parse takes is END:VCALENDAR |
| Reader.CalendarWithoutEvents | parse.go:142-146 | a calendar without BEGIN:VEVENT comes back with the header of `NewCalendar`, whatever its properties |
| Reader.Conclude | parse.go:118-138 | a calendar, an error, a panic or a hang, according to how the parse and the scanner end |
| Reader.SuccessIsDelivered | parse.go:118-138 | for a stream a scan can produce, the caller gets a calendar exactly when the parse succeeds |
| Reader.StopsAtFirstError | parse.go:118-138 | the parser never takes a token past the first error token |
| Reader.Deliver | parse.go:118-138 | a calendar is delivered exactly when the parse succeeds, and it is the materialized model |
| Reader.Parse | parse.go:29-48 | a calendar is returned exactly when the parser accepts the tokens of the unfolded text, and it is the materialized model of that parse |

## Left out

- Reading the `io.Reader` (parse.go:33-36) is left out: `Reader.Parse` takes the text already read.
- The `time.Local` default (parse.go:39-41) is host state. The default zone is a parameter of `Reader.Parse`.
- The goroutine and the unbuffered channel (lex.go:77-92, 145-152) become a pull-based cursor, `Lex.Next`. Tokens never received after the parser stops, and the leaked goroutine, are not modelled.
- `lexer.peek` and `lexer.backup` (lex.go:121-134) are not separate operations. Each greedy loop is modelled as a whole by `Lex.Absorb`.
- `ignore` (lex.go:105-107) is not separate either. The quoted-value steps set the pending start directly.
- The `lastPos` field (lex.go:73, 150) is written but never read, so it is left out.
- Debug tracing (lex_item.go:8 and every `if debug` block) is left out: it is off and has no effect.
- `unicode.IsLetter` and `unicode.IsDigit` (lex_helper.go:11) are modelled for ASCII letters and digits only.
- The input is a sequence of code points, not UTF-8 bytes, so `item.pos` is a code point index. Byte counts enter where the Go code decides on `len`: the crash of `lexNewLine`, the "..." of `item.String` and the 8-byte date test of `parseDate` (`Runes.Utf8Length`). A byte of invalid UTF-8 is not modelled.
- Lex.LexNewLineStep: when the two skipped bytes end inside a multi-byte character, the model resumes after that whole character. Go resumes in the middle of it, and the line end's text holds part of its encoding; a sequence of code points cannot stop there.
- Runes.IsName: does not state that non-ASCII letters and digits are accepted, because the model has ASCII tables only.
- Go's `%q` escaping in `item.String` is not modelled, and neither are the exact texts of error messages. `Items.Render` quotes without escaping, and failures are datatypes.
- The internals of `time.Parse`, `time.ParseInLocation`, `time.LoadLocation`, `Time.Add` and `Time.IsZero` are not modelled. They are the functions of a `Time.TimeLib` value and an abstract `Time.Instant` with a zero value.
- Which key the duplicate-property error names (parse_validate.go:96-100, 131-135) depends on map iteration order. The model only says that the check fails.
- The parser's `peek` (parse.go:75-82) is never called, so it is not modelled.
- `enterScope` and `leaveScope` (parse.go:85-97) always set a fixed scope, and the decrement branch is never taken. They are folded into `Scopes.ScopeAfter`.
- The `default` case of the scope switch (parse.go:329-330) cannot be reached. The scope datatype has exactly the six scopes.
- After a delimiter, `scanContentLine` calls itself (parse.go:286); `Reader.ParseLines` loops instead. This is the same sequence of reads, except that the Go stack can overflow on a very long run of delimiters, which is not modelled.
- `TestParse` (parse_test.go:33-43) reads fixture files that are not part of this model.
- example/main.go is a demonstration program and is not part of this model.
- Items.Code: states only the range of the codes. Their distinctness and the delimiter range are in `Items.CodesAreFaithful` and `Items.DelimiterCodes`.
- Lex.Next: states only that the cursor stays valid. What it yields is in `Lex.NextFollowsRun`.
- Unfolding.Unfold: its own contract states only the length bound. Its meaning is in the unfolding lemmas.
