/** Tokens of the scanner: the token types of lex.go (lines 9-43) and the
    token record with its rendering (lex_item.go). */
module Items {
  import opened Runes

  /** The six components a BEGIN:/END: delimiter can name, in the order the
      delimiter types are declared. */
  datatype Component = VCalendar | VEvent | VAlarm | VTimezone | StandardTime | DaylightTime

  /** The token types. `ItemKeyword` only separates the delimiters from the
      rest; the scanner never emits it. */
  datatype ItemType =
    | ItemError
    | ItemEOF
    | ItemLineEnd
    | ItemName
    | ItemParamName
    | ItemParamValue
    | ItemValue
    | ItemColon
    | ItemSemiColon
    | ItemEqual
    | ItemComma
    | ItemKeyword
    | ItemDelim(begin: bool, comp: Component)

  function ComponentIndex(c: Component): nat
  {
    match c
    case VCalendar => 0
    case VEvent => 1
    case VAlarm => 2
    case VTimezone => 3
    case StandardTime => 4
    case DaylightTime => 5
  }

  /** The integer `iota` gives each type in the Go declaration. */
  function Code(t: ItemType): (n: nat)
    ensures n < 24
  {
    match t
    case ItemError => 0
    case ItemEOF => 1
    case ItemLineEnd => 2
    case ItemName => 3
    case ItemParamName => 4
    case ItemParamValue => 5
    case ItemValue => 6
    case ItemColon => 7
    case ItemSemiColon => 8
    case ItemEqual => 9
    case ItemComma => 10
    case ItemKeyword => 11
    case ItemDelim(begin, c) => 12 + 2 * ComponentIndex(c) + (if begin then 0 else 1)
  }

  /** lex_item.go's test `typ > itemKeyword`. */
  predicate IsDelimiter(t: ItemType)
  {
    Code(t) > Code(ItemKeyword)
  }

  /** Distinct types have distinct codes, the zero code is the error type, and
      the delimiters are exactly the types above `itemKeyword`. */
  lemma CodesAreFaithful(t: ItemType, u: ItemType)
    ensures Code(t) == Code(u) ==> t == u
    ensures Code(t) == 0 <==> t == ItemError
    ensures IsDelimiter(t) <==> t.ItemDelim?
  {
  }

  /** Every code from 12 to 23 is a delimiter type; with `CodesAreFaithful`
      this makes the twelve delimiters exactly the codes above `itemKeyword`. */
  lemma DelimiterCodes(n: nat)
    requires Code(ItemKeyword) < n < 24
    ensures exists t: ItemType :: t.ItemDelim? && Code(t) == n
  {
    var cs := [VCalendar, VEvent, VAlarm, VTimezone, StandardTime, DaylightTime];
    var c := cs[(n - 12) / 2];
    assert Code(ItemDelim((n - 12) % 2 == 0, c)) == n;
  }

  /** The text a delimiter token stands for, "BEGIN:VEVENT" and the like. */
  function ComponentName(c: Component): string
  {
    match c
    case VCalendar => "VCALENDAR"
    case VEvent => "VEVENT"
    case VAlarm => "VALARM"
    case VTimezone => "VTIMEZONE"
    case StandardTime => "STANDARD"
    case DaylightTime => "DAYLIGHT"
  }

  function KeywordText(begin: bool, c: Component): string
  {
    (if begin then "BEGIN:" else "END:") + ComponentName(c)
  }

  /** A token: its type, the index in the input where it starts, and its text. */
  datatype Item = Item(typ: ItemType, pos: nat, val: string)

  /** The zero value `item{}`, which a receive from the closed token channel
      yields. */
  const ZeroItem: Item := Item(ItemError, 0, "")

  /** `isItemName`. */
  function IsItemName(i: Item): (b: bool)
    ensures b <==> Code(i.typ) == 3
    ensures b ==> !IsDelimiter(i.typ)
  {
    i.typ == ItemName
  }

  /** Go's `%q` of a string, without the escaping of special characters. */
  function Quote(s: string): (r: string)
    ensures |r| == |s| + 2 && r[0] == '"' && r[|r| - 1] == '"' && r[1..|r| - 1] == s
  {
    "\"" + s + "\""
  }

  /** The token types `item.String` prints quoted: all but EOF, the error
      type and the delimiters. */
  predicate Quoted(t: ItemType)
  {
    t != ItemEOF && t != ItemError && !IsDelimiter(t)
  }

  /** `item.String`. The test `len(i.val) > 10` counts bytes, while the
      precision of `%.10q` counts characters: a value of more than 10 bytes
      shows at most its first 10 characters, then "...". */
  function Render(i: Item): (r: string)
    ensures i.typ == ItemEOF ==> r == "EOF"
    ensures i.typ == ItemError ==> r == i.val
    ensures IsDelimiter(i.typ) ==> |r| == |i.val| + 2 && r[0] == '<' && r[|r| - 1] == '>' && r[1..|r| - 1] == i.val
    ensures Quoted(i.typ) && Utf8Length(i.val) <= 10 ==>
              |r| == |i.val| + 2 && r[0] == '"' && r[1..|r| - 1] == i.val && r[|r| - 1] == '"'
    ensures Quoted(i.typ) && Utf8Length(i.val) > 10 ==>
              var k := if |i.val| < 10 then |i.val| else 10;
              |r| == k + 5 && r[0] == '"' && r[1..k + 1] == i.val[..k] && r[k + 1..] == "\"..."
  {
    if i.typ == ItemEOF then "EOF"
    else if i.typ == ItemError then i.val
    else if IsDelimiter(i.typ) then "<" + i.val + ">"
    else if Utf8Length(i.val) > 10 then Quote(i.val[..if |i.val| < 10 then |i.val| else 10]) + "..."
    else Quote(i.val)
  }

  /** For an ASCII value bytes and characters agree: the value is cut
      exactly when it has more than 10 characters, and then to 10. */
  lemma AsciiRender(i: Item)
    requires Quoted(i.typ) && Ascii(i.val)
    ensures var r := Render(i);
      (r[|r| - 1] == '.' <==> |i.val| > 10) && (|i.val| > 10 ==> r[1..11] == i.val[..10])
  {
    AsciiLength(i.val);
  }

  /** Six two-byte characters are 12 bytes but only 6 characters: the value
      is shown whole, and still followed by "...". */
  lemma WideValueRender()
    ensures Render(Item(ItemValue, 0, "\U{E9}\U{E9}\U{E9}\U{E9}\U{E9}\U{E9}"))
              == "\"\U{E9}\U{E9}\U{E9}\U{E9}\U{E9}\U{E9}\"..."
  {
    var v := "\U{E9}\U{E9}\U{E9}\U{E9}\U{E9}\U{E9}";
    assert Utf8Length(v[5..]) == 2;
    assert Utf8Length(v[3..]) == 6;
    assert Utf8Length(v) == 12;
  }
}
