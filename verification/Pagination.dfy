/** The opaque page token of internal/pagination/cursor.go: base64 over the JSON text of
    a cursor. */
module Pagination {
  import opened Prelude
  import opened Numerals
  import opened Timestamps
  import opened Orders
  import Base64
  import Rfc3339

  datatype Cursor = Cursor(createdAt: Time, id: Uuid)

  /** What json.Unmarshal starts from. */
  const ZERO := Cursor(Clock(1, 1, 1, 0, 0, 0, 0, 0), NIL)

  // ---------------------------------------------------------------------
  // UUIDs

  function UuidText(id: Uuid): (s: string)
    ensures |s| == 36
  {
    var h := Numeral(id, 16, 32);
    h[..8] + "-" + h[8..12] + "-" + h[12..16] + "-" + h[16..20] + "-" + h[20..]
  }

  lemma UuidPow()
    ensures Pow(16, 32) == UUID_LIMIT
  {
    assert Pow(16, 8) == 0x1_0000_0000;
    assert Pow(16, 16) == 0x1_0000_0000_0000_0000;
    assert Pow(16, 24) == 0x1_0000_0000_0000_0000_0000_0000;
  }

  function ParseUuid(s: string): Option<Uuid> {
    if |s| != 36 || s[8] != '-' || s[13] != '-' || s[18] != '-' || s[23] != '-' then None
    else
      var digits := s[..8] + s[9..13] + s[14..18] + s[19..23] + s[24..];
      UuidPow();
      NumberFits(digits, 16);
      Number(digits, 16)
  }

  /** Hyphens go in and come out at the same places. */
  lemma Hyphens(h: string)
    requires |h| == 32
    ensures var s := h[..8] + "-" + h[8..12] + "-" + h[12..16] + "-" + h[16..20] + "-" + h[20..];
      && |s| == 36 && s[8] == '-' && s[13] == '-' && s[18] == '-' && s[23] == '-'
      && s[..8] + s[9..13] + s[14..18] + s[19..23] + s[24..] == h
  {
    var s := h[..8] + "-" + h[8..12] + "-" + h[12..16] + "-" + h[16..20] + "-" + h[20..];
    assert s[..8] == h[..8] && s[9..13] == h[8..12] && s[14..18] == h[12..16];
    assert s[19..23] == h[16..20] && s[24..] == h[20..];
  }

  lemma ParseUuidText(id: Uuid)
    ensures ParseUuid(UuidText(id)) == Some(id)
  {
    Hyphens(Numeral(id, 16, 32));
    UuidPow();
    NumberOfNumeral(id, 16, 32);
  }

  // ---------------------------------------------------------------------
  // JSON

  const CREATED_AT := "\"createdAt\":\""
  const ID := "\"id\":\""

  /** json.Marshal of a cursor; None when the time cannot be printed. */
  function Marshal(c: Cursor): Option<string> {
    if Rfc3339.Printable(c.createdAt)
    then Some(("{" + CREATED_AT) + Rfc3339.Print(c.createdAt) + ("\"," + ID) + UuidText(c.id) + "\"}")
    else None
  }

  /** Where the string value that s begins with ends. */
  function Quote(s: string): (n: nat)
    ensures n <= |s| && (n < |s| ==> s[n] == '"')
    ensures forall i :: 0 <= i < n ==> s[i] != '"'
  {
    if s == "" || s[0] == '"' then 0 else 1 + Quote(s[1..])
  }

  datatype Split = Split(value: string, rest: string)

  /** The string value that s begins with, and what follows its closing quote. */
  function StringValue(s: string): (v: Option<Split>)
    ensures v.Some? ==> |v.value.rest| < |s|
  {
    var n := Quote(s);
    if n == |s| then None else Some(Split(s[..n], s[n + 1..]))
  }

  /** One member, with a string value, of the object: sets its field of c. */
  datatype Member = Member(cursor: Cursor, rest: string)

  function ParseMember(s: string, c: Cursor): (m: Option<Member>)
    ensures m.Some? ==> |m.value.rest| < |s|
  {
    if CREATED_AT <= s then
      var v := StringValue(s[|CREATED_AT|..]);
      var t := if v.Some? then Rfc3339.Parse(v.value.value) else None;
      if t.None? then None else Some(Member(c.(createdAt := t.value), v.value.rest))
    else if ID <= s then
      var v := StringValue(s[|ID|..]);
      var id := if v.Some? then ParseUuid(v.value.value) else None;
      if id.None? then None else Some(Member(c.(id := id.value), v.value.rest))
    else None
  }

  /** The members up to the closing brace; a later member wins over an earlier one. */
  function ParseMembers(s: string, c: Cursor): Option<Cursor>
    decreases |s|
  {
    var m := ParseMember(s, c);
    if m.None? then None
    else if m.value.rest == "}" then Some(m.value.cursor)
    else if m.value.rest != "" && m.value.rest[0] == ',' then ParseMembers(m.value.rest[1..], m.value.cursor)
    else None
  }

  /** json.Unmarshal into a zero cursor. */
  function Unmarshal(data: string): Option<Cursor> {
    if data == "null" || data == "{}" then Some(ZERO)
    else if data != "" && data[0] == '{' then ParseMembers(data[1..], ZERO)
    else None
  }

  // ---------------------------------------------------------------------
  // Tokens

  function EncodeCursor(c: Cursor): (token: Option<string>)
    ensures token.Some? <==> 0 <= c.createdAt.year <= 9999 && -86_400 < c.createdAt.offset < 86_400
  {
    var data := Marshal(c);
    if data.None? then None
    else
      MarshalIsAscii(c);
      Some(Base64.Encode(data.value))
  }

  /** A client's token, or None for a malformed one. */
  function DecodeCursor(token: string): (c: Option<Cursor>)
    ensures c.Some? ==> !IsZero(c.value.createdAt) && c.value.id != NIL
  {
    var data := Base64.Decode(token);
    if data.None? then None
    else
      var c := Unmarshal(data.value);
      if c.None? || IsZero(c.value.createdAt) || c.value.id == NIL then None else c
  }

  // ---------------------------------------------------------------------
  // Round trip

  /** Printed text without quotes, one byte a character. */
  predicate Plain(s: string) {
    forall i :: 0 <= i < |s| ==> s[i] != '"' && s[i] as int < 128
  }

  lemma NumeralIsPlain(n: nat, base: nat, width: nat)
    requires 2 <= base <= 16
    ensures Plain(Numeral(n, base, width))
  {
    var s := Numeral(n, base, width);
    forall i | 0 <= i < |s| ensures s[i] != '"' && s[i] as int < 128 {
      assert s[i] in s;
    }
  }

  lemma PlainTogether(s: string, t: string)
    requires Plain(s) && Plain(t)
    ensures Plain(s + t)
  {
  }

  lemma FractionIsPlain(nanos: nat)
    ensures Plain(Rfc3339.FractionText(nanos))
  {
    NumeralIsPlain(nanos, 10, 9);
    if nanos != 0 { PlainTogether(".", Rfc3339.TrimZeros(Numeral(nanos, 10, 9))); }
  }

  lemma PrintIsPlain(t: Time)
    requires Rfc3339.Printable(t)
    ensures Plain(Rfc3339.Print(t))
  {
    DateIsPlain(t);
    ClockIsPlain(t);
    ZoneIsPlain(t.offset);
    FractionIsPlain(t.nanos);
    var date, rest := Rfc3339.DateText(t), Rfc3339.FractionText(t.nanos) + Rfc3339.ZoneText(t.offset);
    PlainTogether(date, "T");
    PlainTogether(date + "T", Rfc3339.ClockText(t));
    PlainTogether(Rfc3339.FractionText(t.nanos), Rfc3339.ZoneText(t.offset));
    PlainTogether(date + "T" + Rfc3339.ClockText(t), rest);
  }

  lemma DateIsPlain(t: Time)
    requires 0 <= t.year <= 9999
    ensures Plain(Rfc3339.DateText(t))
  {
    NumeralIsPlain(t.year, 10, 4);
    NumeralIsPlain(t.month, 10, 2);
    NumeralIsPlain(t.day, 10, 2);
  }

  lemma ClockIsPlain(t: Time)
    ensures Plain(Rfc3339.ClockText(t))
  {
    NumeralIsPlain(t.hour, 10, 2);
    NumeralIsPlain(t.minute, 10, 2);
    NumeralIsPlain(t.second, 10, 2);
  }

  lemma ZoneIsPlain(offset: int)
    ensures Plain(Rfc3339.ZoneText(offset))
  {
    NumeralIsPlain(Rfc3339.Abs(offset) / 60 / 60, 10, 2);
    NumeralIsPlain(Rfc3339.Abs(offset) / 60 % 60, 10, 2);
  }

  lemma UuidIsPlain(id: Uuid)
    ensures Plain(UuidText(id))
  {
    NumeralIsPlain(id, 16, 32);
    var h := Numeral(id, 16, 32);
    PlainParts(h, 0, 8);
    PlainParts(h, 8, 12);
    PlainParts(h, 12, 16);
    PlainParts(h, 16, 20);
    PlainParts(h, 20, 32);
    assert h[0..8] == h[..8] && h[20..32] == h[20..];
    Hyphenated(h[..8], h[8..12]);
    Hyphenated(h[..8] + "-" + h[8..12], h[12..16]);
    Hyphenated(h[..8] + "-" + h[8..12] + "-" + h[12..16], h[16..20]);
    Hyphenated(h[..8] + "-" + h[8..12] + "-" + h[12..16] + "-" + h[16..20], h[20..]);
  }

  lemma Hyphenated(s: string, t: string)
    requires Plain(s) && Plain(t)
    ensures Plain(s + "-" + t)
  {
  }

  lemma PlainParts(s: string, i: nat, j: nat)
    requires Plain(s) && i <= j <= |s|
    ensures Plain(s[i..j])
  {
  }

  lemma MarshalIsAscii(c: Cursor)
    ensures Marshal(c).Some? ==> Base64.IsBytes(Marshal(c).value)
  {
    if Rfc3339.Printable(c.createdAt) {
      PrintIsPlain(c.createdAt);
      UuidIsPlain(c.id);
      ObjectIsAscii(Rfc3339.Print(c.createdAt), UuidText(c.id));
    }
  }

  lemma ObjectIsAscii(time: string, uuid: string)
    requires Plain(time) && Plain(uuid)
    ensures Base64.IsBytes(("{" + CREATED_AT) + time + ("\"," + ID) + uuid + "\"}")
  {
  }

  lemma {:induction false} QuoteEnds(v: string, rest: string)
    requires '"' !in v
    ensures Quote(v + "\"" + rest) == |v|
  {
    if v != "" {
      assert (v + "\"" + rest)[1..] == v[1..] + "\"" + rest;
      assert '"' !in v[1..];
      QuoteEnds(v[1..], rest);
    }
  }

  lemma StringValueIff(s: string, v: string, rest: string)
    ensures StringValue(s) == Some(Split(v, rest)) <==> '"' !in v && s == v + "\"" + rest
  {
    if StringValue(s) == Some(Split(v, rest)) {
      assert s == s[..|v|] + "\"" + s[|v| + 1..];
    }
    if '"' !in v && s == v + "\"" + rest {
      QuoteEnds(v, rest);
      assert s[..|v|] == v && s[|v| + 1..] == rest;
    }
  }

  lemma CreatedAtMember(text: string, t: Time, rest: string, c: Cursor)
    requires '"' !in text && Rfc3339.Parse(text) == Some(t)
    ensures ParseMember(CREATED_AT + (text + "\"" + rest), c) == Some(Member(c.(createdAt := t), rest))
  {
    var v := text + "\"" + rest;
    assert (CREATED_AT + v)[|CREATED_AT|..] == v;
    StringValueIff(v, text, rest);
  }

  lemma IdMember(text: string, id: Uuid, rest: string, c: Cursor)
    requires '"' !in text && ParseUuid(text) == Some(id)
    ensures ParseMember(ID + (text + "\"" + rest), c) == Some(Member(c.(id := id), rest))
  {
    var v := text + "\"" + rest;
    assert (ID + v)[|ID|..] == v;
    assert CREATED_AT[1] != (ID + v)[1];
    StringValueIff(v, text, rest);
  }

  lemma Object(members: string)
    requires members != "" && members[0] == '"'
    ensures Unmarshal("{" + members) == ParseMembers(members, ZERO)
  {
    var data := "{" + members;
    assert data[0] == '{' && data[1] == '"' && data[1..] == members;
    assert "null"[0] == 'n' && "{}"[1] == '}';
  }

  lemma LastMember(s: string, c: Cursor, d: Cursor)
    requires ParseMember(s, c) == Some(Member(d, "}"))
    ensures ParseMembers(s, c) == Some(d)
  {
  }

  lemma FirstMember(s: string, c: Cursor, d: Cursor, rest: string)
    requires ParseMember(s, c) == Some(Member(d, "," + rest))
    ensures ParseMembers(s, c) == ParseMembers(rest, d)
  {
    assert ("," + rest)[0] == ',' && ("," + rest)[1..] == rest;
  }

  /** Two members, in this order. */
  lemma BothMembers(time: string, t: Time, uuid: string, id: Uuid)
    requires Plain(time) && Rfc3339.Parse(time) == Some(t) && Plain(uuid) && ParseUuid(uuid) == Some(id)
    ensures Unmarshal(("{" + CREATED_AT) + time + ("\"," + ID) + uuid + "\"}") == Some(Cursor(t, id))
  {
    var second := ID + (uuid + "\"" + "}");
    var members := CREATED_AT + (time + "\"" + ("," + second));
    assert ("{" + CREATED_AT) + time + ("\"," + ID) + uuid + "\"}" == "{" + members;
    Object(members);
    CreatedAtMember(time, t, "," + second, ZERO);
    FirstMember(members, ZERO, ZERO.(createdAt := t), second);
    IdMember(uuid, id, "}", ZERO.(createdAt := t));
    LastMember(second, ZERO.(createdAt := t), Cursor(t, id));
  }

  lemma UnmarshalMarshal(c: Cursor)
    requires Rfc3339.Printable(c.createdAt)
    ensures Unmarshal(Marshal(c).value) == Some(Cursor(Rfc3339.Rounded(c.createdAt), c.id))
  {
    PrintIsPlain(c.createdAt);
    UuidIsPlain(c.id);
    Rfc3339.ParsePrint(c.createdAt);
    ParseUuidText(c.id);
    BothMembers(Rfc3339.Print(c.createdAt), Rfc3339.Rounded(c.createdAt), UuidText(c.id), c.id);
  }

  lemma DecodeToken(data: string)
    requires Base64.IsBytes(data)
    ensures Base64.Decode(Base64.Encode(data)) == Some(data)
  {
    Base64.NoNewlines(data);
    Base64.NothingDropped(Base64.Encode(data));
    Base64.DecodeEncode(data, Base64.Encode(data));
  }

  /** What a token made by EncodeCursor decodes to, for every cursor that has one. */
  lemma DecodeEncode(c: Cursor)
    requires Rfc3339.Printable(c.createdAt)
    ensures DecodeCursor(EncodeCursor(c).value) ==
      var back := Cursor(Rfc3339.Rounded(c.createdAt), c.id);
      if IsZero(back.createdAt) || c.id == NIL then None else Some(back)
  {
    MarshalIsAscii(c);
    DecodeToken(Marshal(c).value);
    UnmarshalMarshal(c);
  }

  /** The two cursors mark the same place in the listing. */
  predicate SamePlace(a: Cursor, b: Cursor) {
    Instant(a.createdAt) == Instant(b.createdAt) && a.id == b.id
  }

  /** A token brings its cursor back exactly when the zone offset of the time is a
      whole number of minutes. */
  lemma RoundTripIff(c: Cursor)
    requires Rfc3339.Printable(c.createdAt) && !IsZero(c.createdAt) && c.id != NIL
    ensures (DecodeCursor(EncodeCursor(c).value).Some? && SamePlace(DecodeCursor(EncodeCursor(c).value).value, c))
       <==> c.createdAt.offset % 60 == 0
  {
    DecodeEncode(c);
    Rfc3339.SameInstantIff(c.createdAt);
  }

  /** How far a token moves its position: by the seconds of the zone offset. */
  lemma RoundTripShift(c: Cursor)
    requires Rfc3339.Printable(c.createdAt) && !IsZero(Rfc3339.Rounded(c.createdAt)) && c.id != NIL
    ensures DecodeCursor(EncodeCursor(c).value).Some?
    ensures var back := DecodeCursor(EncodeCursor(c).value).value;
      && back.id == c.id
      && Instant(back.createdAt) - Instant(c.createdAt)
         == (if c.createdAt.offset < 0 then -(-c.createdAt.offset % 60) else c.createdAt.offset % 60) * 1_000_000_000
  {
    DecodeEncode(c);
    Rfc3339.RoundedShifts(c.createdAt);
    SecondsOfOffset(c.createdAt.offset);
  }

  lemma SecondsOfOffset(offset: int)
    ensures offset - Rfc3339.WholeMinutes(offset) == if offset < 0 then -(-offset % 60) else offset % 60
  {
  }

  /** In a zone 30 seconds east, every position of January 2024 comes back 30 seconds
      later: the next page begins with orders that were already shown. */
  lemma OffsetSecondsAreLost(c: Cursor)
    requires c.createdAt.year == 2024 && c.createdAt.month == 1 && c.createdAt.offset == 30 && c.id != NIL
    ensures DecodeCursor(EncodeCursor(c).value).Some?
    ensures Instant(DecodeCursor(EncodeCursor(c).value).value.createdAt) == Instant(c.createdAt) + 30_000_000_000
  {
    JanuaryIsNotZero(Rfc3339.Rounded(c.createdAt));
    RoundTripShift(c);
  }

  lemma JanuaryIsNotZero(t: Time)
    requires t.year > 1 && t.month == 1 && t.offset == 0
    ensures !IsZero(t)
  {
    assert DaysBeforeMonth(t.year, 1) > 0;
  }

  lemma ZeroIsZero()
    ensures IsZero(ZERO.createdAt)
  {
  }

  lemma NoFields(data: string)
    requires data == "null" || data == "{}"
    ensures Unmarshal(data).Some? && Unmarshal(data).value.id == NIL
  {
  }

  lemma OnlyCreatedAt(text: string)
    requires Plain(text) && Rfc3339.Parse(text).Some?
    ensures var data := "{" + (CREATED_AT + (text + "\"" + "}"));
      Unmarshal(data).Some? && Unmarshal(data).value.id == NIL
  {
    var t := Rfc3339.Parse(text).value;
    var member := CREATED_AT + (text + "\"" + "}");
    CreatedAtMember(text, t, "}", ZERO);
    Object(member);
    LastMember(member, ZERO, Cursor(t, NIL));
  }

  lemma OnlyId(text: string)
    requires Plain(text) && ParseUuid(text).Some?
    ensures var data := "{" + (ID + (text + "\"" + "}"));
      Unmarshal(data).Some? && IsZero(Unmarshal(data).value.createdAt)
  {
    var id := ParseUuid(text).value;
    var member := ID + (text + "\"" + "}");
    IdMember(text, id, "}", ZERO);
    Object(member);
    LastMember(member, ZERO, Cursor(ZERO.createdAt, id));
    ZeroIsZero();
  }

  lemma RejectedWithout(token: string, data: string)
    requires Base64.Decode(token) == Some(data) && Unmarshal(data).Some?
    requires IsZero(Unmarshal(data).value.createdAt) || Unmarshal(data).value.id == NIL
    ensures DecodeCursor(token).None?
  {
  }

  /** Tokens of well-formed JSON that carries no position are rejected: null and {}. */
  lemma EmptyTokenIsRejected(token: string, data: string)
    requires Base64.Decode(token) == Some(data) && (data == "null" || data == "{}")
    ensures Unmarshal(data).Some? && DecodeCursor(token).None?
  {
    NoFields(data);
    RejectedWithout(token, data);
  }

  /** So are a time without an id and an id without a time. */
  lemma HalfTokenIsRejected(token: string, data: string, text: string)
    requires Base64.Decode(token) == Some(data) && Plain(text)
    requires (data == "{" + (CREATED_AT + (text + "\"" + "}")) && Rfc3339.Parse(text).Some?)
      || (data == "{" + (ID + (text + "\"" + "}")) && ParseUuid(text).Some?)
    ensures Unmarshal(data).Some? && DecodeCursor(token).None?
  {
    if data == "{" + (CREATED_AT + (text + "\"" + "}")) && Rfc3339.Parse(text).Some? {
      OnlyCreatedAt(text);
    } else {
      OnlyId(text);
    }
    RejectedWithout(token, data);
  }

  /** Where the two values stand in the text. */
  lemma ValuesAt(head: string, x: string, middle: string, y: string, tail: string)
    ensures var s := head + x + middle + y + tail;
      && |s| == |head| + |x| + |middle| + |y| + |tail|
      && s[|head|..|head| + |x|] == x
      && s[|head| + |x| + |middle|..|head| + |x| + |middle| + |y|] == y
  {
  }

  lemma SameValues(head: string, x: string, u: string, middle: string, y: string, v: string, tail: string)
    requires |y| == |v| && head + x + middle + y + tail == head + u + middle + v + tail
    ensures x == u && y == v
  {
    ValuesAt(head, x, middle, y, tail);
    ValuesAt(head, u, middle, v, tail);
  }

  lemma SameTextIff(a: Cursor, b: Cursor)
    requires Rfc3339.Printable(a.createdAt) && Rfc3339.Printable(b.createdAt)
    ensures Marshal(a) == Marshal(b) <==> Rfc3339.Print(a.createdAt) == Rfc3339.Print(b.createdAt) && a.id == b.id
  {
    if Marshal(a) == Marshal(b) {
      SameValues("{" + CREATED_AT, Rfc3339.Print(a.createdAt), Rfc3339.Print(b.createdAt), "\"," + ID,
                 UuidText(a.id), UuidText(b.id), "\"}");
      ParseUuidText(a.id);
      ParseUuidText(b.id);
    }
  }

  /** Two cursors share a token exactly when they have the same id and the same printed
      time, and then they mark the same place exactly when their offsets are equal. */
  lemma SameTokenIff(a: Cursor, b: Cursor)
    requires Rfc3339.Printable(a.createdAt) && Rfc3339.Printable(b.createdAt)
    ensures EncodeCursor(a) == EncodeCursor(b) <==>
      && a.id == b.id && Rfc3339.Rounded(a.createdAt) == Rfc3339.Rounded(b.createdAt)
      && (a.createdAt.offset == 0 <==> b.createdAt.offset == 0)
    ensures EncodeCursor(a) == EncodeCursor(b) ==>
      (SamePlace(a, b) <==> a.createdAt.offset == b.createdAt.offset)
  {
    MarshalIsAscii(a);
    MarshalIsAscii(b);
    DecodeToken(Marshal(a).value);
    DecodeToken(Marshal(b).value);
    SameTextIff(a, b);
    Rfc3339.SamePrintIff(a.createdAt, b.createdAt);
    Rfc3339.RoundedShifts(a.createdAt);
    Rfc3339.RoundedShifts(b.createdAt);
  }

  // ---------------------------------------------------------------------
  // Which tokens are accepted

  /** One member of the object, as it is written. */
  datatype Entry = TimeEntry(text: string, time: Time) | IdEntry(text: string, id: Uuid)

  /** The text of the member's value: a time of RFC 3339, or 32 hexadecimal digits in
      groups of 8, 4, 4, 4 and 12. */
  ghost predicate ValueIsText(e: Entry) {
    '"' !in e.text &&
    match e
    case TimeEntry(text, time) => Rfc3339.SpellsTime(text, time)
    case IdEntry(text, id) => SpellsUuid(text, id)
  }

  predicate SpellsUuid(text: string, id: Uuid) {
    && |text| == 36 && text[8] == text[13] == text[18] == text[23] == '-'
    && Number(text[..8] + text[9..13] + text[14..18] + text[19..23] + text[24..], 16) == Some(id)
  }

  function EntryText(e: Entry): string {
    (if e.TimeEntry? then "\"createdAt\":\"" else "\"id\":\"") + (e.text + "\"")
  }

  function Apply(c: Cursor, e: Entry): Cursor {
    if e.TimeEntry? then c.(createdAt := e.time) else c.(id := e.id)
  }

  function Joined(entries: seq<Entry>): string
    requires entries != []
  {
    EntryText(entries[0]) + if |entries| == 1 then "}" else "," + Joined(entries[1..])
  }

  /** A later member wins over an earlier one. */
  function ApplyAll(c: Cursor, entries: seq<Entry>): Cursor
    decreases |entries|
  {
    if entries == [] then c else ApplyAll(Apply(c, entries[0]), entries[1..])
  }

  lemma UuidIff(text: string, id: Uuid)
    ensures ParseUuid(text) == Some(id) <==> SpellsUuid(text, id)
  {
  }

  /** The first member is read exactly as it is written. */
  lemma EntryIsRead(e: Entry, rest: string, c: Cursor)
    requires ValueIsText(e)
    ensures ParseMember(EntryText(e) + rest, c) == Some(Member(Apply(c, e), rest))
  {
    var key := if e.TimeEntry? then CREATED_AT else ID;
    assert EntryText(e) + rest == key + (e.text + "\"" + rest);
    if e.TimeEntry? {
      Rfc3339.ParseIff(e.text, e.time);
      CreatedAtMember(e.text, e.time, rest, c);
    } else {
      UuidIff(e.text, e.id);
      IdMember(e.text, e.id, rest, c);
    }
  }

  lemma KeyAndValue(s: string, key: string, v: Split)
    requires key <= s && StringValue(s[|key|..]) == Some(v)
    ensures '"' !in v.value && s == key + (v.value + "\"") + v.rest
  {
    StringValueIff(s[|key|..], v.value, v.rest);
    assert s == key + s[|key|..];
  }

  lemma ReadIsEntry(s: string, c: Cursor) returns (e: Entry)
    requires ParseMember(s, c).Some?
    ensures ValueIsText(e) && s == EntryText(e) + ParseMember(s, c).value.rest
    ensures ParseMember(s, c).value.cursor == Apply(c, e)
  {
    if CREATED_AT <= s {
      var v := StringValue(s[|CREATED_AT|..]).value;
      KeyAndValue(s, CREATED_AT, v);
      e := TimeEntry(v.value, Rfc3339.Parse(v.value).value);
      Rfc3339.ParseIff(e.text, e.time);
    } else {
      var v := StringValue(s[|ID|..]).value;
      KeyAndValue(s, ID, v);
      e := IdEntry(v.value, ParseUuid(v.value).value);
    }
  }

  lemma {:induction false} EntriesAreRead(entries: seq<Entry>, c: Cursor)
    requires entries != [] && forall e :: e in entries ==> ValueIsText(e)
    ensures ParseMembers(Joined(entries), c) == Some(ApplyAll(c, entries))
    decreases |entries|
  {
    var e, later := entries[0], entries[1..];
    var rest := if later == [] then "}" else "," + Joined(later);
    assert Joined(entries) == EntryText(e) + rest;
    EntryIsRead(e, rest, c);
    if later == [] {
      assert ApplyAll(Apply(c, e), later) == Apply(c, e);
    } else {
      EntriesAreRead(later, Apply(c, e));
      FirstMember(Joined(entries), c, Apply(c, e), Joined(later));
    }
  }

  lemma OneMoreEntry(e: Entry, later: seq<Entry>, c: Cursor)
    ensures Joined([e]) == EntryText(e) + "}" && ApplyAll(c, [e]) == Apply(c, e)
    ensures later != [] ==> Joined([e] + later) == EntryText(e) + ("," + Joined(later))
    ensures ApplyAll(c, [e] + later) == ApplyAll(Apply(c, e), later)
  {
    assert ApplyAll(Apply(c, e), [e][1..]) == Apply(c, e);
    assert ([e] + later)[1..] == later;
  }

  lemma AfterComma(rest: string)
    requires rest != "" && rest[0] == ','
    ensures rest == "," + rest[1..]
  {
  }

  lemma {:induction false} ReadIsEntries(s: string, c: Cursor) returns (entries: seq<Entry>)
    requires ParseMembers(s, c).Some?
    ensures entries != [] && (forall e :: e in entries ==> ValueIsText(e)) && s == Joined(entries)
    ensures ParseMembers(s, c).value == ApplyAll(c, entries)
    decreases |s|
  {
    var m := ParseMember(s, c).value;
    var e := ReadIsEntry(s, c);
    if m.rest == "}" {
      OneMoreEntry(e, [], c);
      entries := [e];
    } else {
      AfterComma(m.rest);
      var later := ReadIsEntries(m.rest[1..], m.cursor);
      OneMoreEntry(e, later, c);
      entries := [e] + later;
    }
  }

  /** The text is an object of these members, which make this cursor. */
  ghost predicate WrittenAs(data: string, c: Cursor, entries: seq<Entry>) {
    && entries != [] && (forall e :: e in entries ==> ValueIsText(e))
    && data == "{" + Joined(entries) && c == ApplyAll(ZERO, entries)
  }

  /** The texts that decode: null, an empty object, or an object of such members. */
  ghost predicate IsObject(data: string, c: Cursor) {
    ((data == "null" || data == "{}") && c == ZERO) || exists entries :: WrittenAs(data, c, entries)
  }

  lemma UnmarshalIff(data: string, c: Cursor)
    ensures Unmarshal(data) == Some(c) <==> IsObject(data, c)
  {
    if Unmarshal(data) == Some(c) && data != "null" && data != "{}" {
      var entries := ReadIsEntries(data[1..], ZERO);
      assert WrittenAs(data, c, entries);
    }
    if entries :| WrittenAs(data, c, entries) {
      EntriesAreRead(entries, ZERO);
      assert EntryText(entries[0])[0] == '"';
      Object(Joined(entries));
    }
  }

  /** A token is accepted exactly when it is base64 of such a text, with a time that is
      not zero and an id that is not nil. */
  lemma AcceptedIff(token: string, c: Cursor)
    ensures Base64.Decode(token).Some? <==> Base64.WellFormed(Base64.DropNewlines(token))
    ensures DecodeCursor(token) == Some(c) <==>
      && Base64.Decode(token).Some? && IsObject(Base64.Decode(token).value, c)
      && Instant(c.createdAt) != 0 && c.id != 0
  {
    Base64.DecodableIff(token);
    if Base64.Decode(token).Some? { UnmarshalIff(Base64.Decode(token).value, c); }
  }
}
