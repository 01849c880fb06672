/** The JSON text of a cursor: compact objects of strings and nulls
    (sections 4 and 7 of RFC 8259), printed as `json.dumps(...,
    separators=(",", ":"))` prints them and read as `json.loads` reads them. */
module Json {
  import opened Option

  datatype Member = Member(key: string, value: Option<string>)

  // ---------- Printing ----------

  function HexChar(d: nat): (c: char)
    requires d < 16
    ensures HexValue(c) == Some(d) && c as int < 128
  {
    if d < 10 then ('0' as int + d) as char else ('a' as int + d - 10) as char
  }

  function HexValue(c: char): (r: Option<nat>)
    ensures r.Some? ==> r.value < 16
  {
    if '0' <= c <= '9' then Some(c as int - '0' as int)
    else if 'a' <= c <= 'f' then Some(c as int - 'a' as int + 10)
    else if 'A' <= c <= 'F' then Some(c as int - 'A' as int + 10)
    else None
  }

  /** `\uXXXX` */
  function UnitEscape(u: nat): (s: string)
    requires u < 0x10000
    ensures |s| == 6
  {
    ['\\', 'u', HexChar(u / 0x1000), HexChar(u / 0x100 % 16), HexChar(u / 16 % 16), HexChar(u % 16)]
  }

  predicate IsPlain(c: char) { ' ' <= c <= '~' && c != '\"' && c != '\\' }

  /** The letter of a two-character escape, if c has one. */
  function ShortFor(c: char): Option<char> {
    if c == '\"' || c == '\\' then Some(c)
    else if c as int == 8 then Some('b')
    else if c as int == 12 then Some('f')
    else if c == '\n' then Some('n')
    else if c == '\r' then Some('r')
    else if c == '\t' then Some('t')
    else None
  }

  function EscapeChar(c: char): (s: string)
    ensures |s| >= 1
  {
    if IsPlain(c) then [c]
    else if ShortFor(c).Some? then ['\\', ShortFor(c).value]
    else if c as int < 0x10000 then UnitEscape(c as int)
    else UnitEscape(HighUnit(c)) + UnitEscape(LowUnit(c))
  }

  function HighUnit(c: char): (u: nat)
    requires c as int >= 0x10000
    ensures 0xD800 <= u < 0xDC00
  {
    0xD800 + (c as int - 0x10000) / 0x400
  }

  function LowUnit(c: char): (u: nat)
    requires c as int >= 0x10000
    ensures 0xDC00 <= u < 0xE000
  {
    0xDC00 + (c as int - 0x10000) % 0x400
  }

  function Escape(s: string): string {
    if s == "" then "" else EscapeChar(s[0]) + Escape(s[1..])
  }

  function Quote(s: string): string { "\"" + Escape(s) + "\"" }

  function PrintValue(v: Option<string>): string {
    if v.None? then "null" else Quote(v.value)
  }

  function PrintMember(m: Member): string { Quote(m.key) + ":" + PrintValue(m.value) }

  /** Every member but the first is preceded by a comma. */
  function PrintRest(ms: seq<Member>): string {
    if ms == [] then "}" else "," + PrintMember(ms[0]) + PrintRest(ms[1..])
  }

  function PrintObject(ms: seq<Member>): string {
    if ms == [] then "{}" else "{" + PrintMember(ms[0]) + PrintRest(ms[1..])
  }

  // ---------- Reading ----------

  predicate Head(s: string, c: char) { s != "" && s[0] == c }

  predicate IsJsonSpace(c: char) { c == ' ' || c == '\t' || c == '\n' || c == '\r' }

  datatype Read<T> = Bad | Good(value: T, rest: string)

  function SkipSpace(s: string): (r: string)
    ensures |r| <= |s|
  {
    if s != "" && IsJsonSpace(s[0]) then SkipSpace(s[1..]) else s
  }

  /** The four hex digits after `\u`. */
  function ReadUnit(s: string): (r: Read<nat>)
    ensures r.Good? ==> r.value < 0x10000 && |r.rest| < |s|
  {
    if |s| < 4 then Bad
    else
      var a, b, c, d := HexValue(s[0]), HexValue(s[1]), HexValue(s[2]), HexValue(s[3]);
      if a.None? || b.None? || c.None? || d.None? then Bad
      else Good(a.value * 0x1000 + b.value * 0x100 + c.value * 16 + d.value, s[4..])
  }

  /** What follows `\u`. A surrogate that is not half of a pair is no
      character here. */
  function ReadUnicode(s: string): (r: Read<char>)
    ensures r.Good? ==> |r.rest| < |s|
  {
    var hi := ReadUnit(s);
    if hi.Bad? then Bad
    else if hi.value < 0xD800 || 0xE000 <= hi.value then Good(hi.value as char, hi.rest)
    else if hi.value < 0xDC00 && |hi.rest| >= 2 && hi.rest[0] == '\\' && hi.rest[1] == 'u' then
      var lo := ReadUnit(hi.rest[2..]);
      if lo.Bad? || lo.value < 0xDC00 || 0xE000 <= lo.value then Bad
      else Good((0x10000 + (hi.value - 0xD800) * 0x400 + (lo.value - 0xDC00)) as char, lo.rest)
    else Bad
  }

  function ShortEscape(c: char): Option<char> {
    if c == '\"' || c == '\\' || c == '/' then Some(c)
    else if c == 'b' then Some(8 as char)
    else if c == 'f' then Some(12 as char)
    else if c == 'n' then Some('\n')
    else if c == 'r' then Some('\r')
    else if c == 't' then Some('\t')
    else None
  }

  /** What follows a backslash. */
  function ReadEscape(s: string): (r: Read<char>)
    ensures r.Good? ==> |r.rest| < |s|
  {
    if s == "" then Bad
    else if s[0] == 'u' then ReadUnicode(s[1..])
    else if ShortEscape(s[0]).Some? then Good(ShortEscape(s[0]).value, s[1..])
    else Bad
  }

  /** The characters of a string up to its closing quote. */
  function ReadChars(s: string): (r: Read<string>)
    ensures r.Good? ==> |r.rest| < |s|
    decreases |s|
  {
    if s == "" then Bad
    else if s[0] == '\"' then Good("", s[1..])
    else if s[0] == '\\' then
      var e := ReadEscape(s[1..]);
      if e.Bad? then Bad
      else
        var t := ReadChars(e.rest);
        if t.Bad? then Bad else Good([e.value] + t.value, t.rest)
    else if s[0] < ' ' then Bad
    else
      var t := ReadChars(s[1..]);
      if t.Bad? then Bad else Good([s[0]] + t.value, t.rest)
  }

  function ReadValue(s: string): (r: Read<Option<string>>)
    ensures r.Good? ==> |r.rest| < |s|
  {
    if |s| >= 4 && s[..4] == "null" then Good(None, s[4..])
    else if Head(s, '\"') then
      var v := ReadChars(s[1..]);
      if v.Bad? then Bad else Good(Some(v.value), v.rest)
    else Bad
  }

  function ReadMember(s: string): (r: Read<Member>)
    ensures r.Good? ==> |r.rest| < |s|
  {
    if !Head(s, '\"') then Bad
    else
      var k := ReadChars(s[1..]);
      if k.Bad? then Bad
      else
        var colon := SkipSpace(k.rest);
        if !Head(colon, ':') then Bad
        else
          var v := ReadValue(SkipSpace(colon[1..]));
          if v.Bad? then Bad else Good(Member(k.value, v.value), v.rest)
  }

  /** Members after the first, up to the closing brace and the end of the text. */
  function ReadRest(s: string): Option<seq<Member>>
    decreases |s|
  {
    var t := SkipSpace(s);
    if Head(t, '}') then (if SkipSpace(t[1..]) == "" then Some([]) else None)
    else if Head(t, ',') then
      var m := ReadMember(SkipSpace(t[1..]));
      if m.Bad? then None
      else
        var ms := ReadRest(m.rest);
        if ms.None? then None else Some([m.value] + ms.value)
    else None
  }

  /** None for everything that is not an object of strings and nulls. */
  function ReadObject(s: string): Option<seq<Member>> {
    var t := SkipSpace(s);
    if !Head(t, '{') then None
    else
      var u := SkipSpace(t[1..]);
      if Head(u, '}') then ReadRest(u)
      else
        var m := ReadMember(u);
        if m.Bad? then None
        else
          var ms := ReadRest(m.rest);
          if ms.None? then None else Some([m.value] + ms.value)
  }

  // ---------- Reading back what was printed ----------

  lemma Assoc(a: string, b: string, c: string)
    ensures a + b + c == a + (b + c)
  {
  }

  lemma HexSplit(u: int)
    requires 0 <= u < 0x10000
    ensures u / 0x1000 < 16
    ensures u / 0x1000 * 0x1000 + u / 0x100 % 16 * 0x100 + u / 16 % 16 * 16 + u % 16 == u
  {
    assert u / 0x1000 == u / 0x100 / 16 && u / 0x100 == u / 16 / 16;
  }

  lemma ReadUnitOfDigits(a: nat, b: nat, c: nat, d: nat, rest: string)
    requires a < 16 && b < 16 && c < 16 && d < 16
    ensures ReadUnit([HexChar(a), HexChar(b), HexChar(c), HexChar(d)] + rest)
         == Good(a * 0x1000 + b * 0x100 + c * 16 + d, rest)
  {
    assert ([HexChar(a), HexChar(b), HexChar(c), HexChar(d)] + rest)[4..] == rest;
  }

  lemma ReadUnitOfEscape(u: nat, rest: string)
    requires u < 0x10000
    ensures ReadUnit(UnitEscape(u)[2..] + rest) == Good(u, rest)
  {
    HexSplit(u);
    ReadUnitOfDigits(u / 0x1000, u / 0x100 % 16, u / 16 % 16, u % 16, rest);
    assert UnitEscape(u)[2..]
        == [HexChar(u / 0x1000), HexChar(u / 0x100 % 16), HexChar(u / 16 % 16), HexChar(u % 16)];
  }

  lemma ReadPairOfEscape(c: char, rest: string)
    requires c as int >= 0x10000
    ensures ReadUnicode(UnitEscape(HighUnit(c))[2..] + (UnitEscape(LowUnit(c)) + rest)) == Good(c, rest)
  {
    var r := UnitEscape(LowUnit(c)) + rest;
    ReadUnitOfEscape(HighUnit(c), r);
    ReadUnitOfEscape(LowUnit(c), rest);
    assert r[2..] == UnitEscape(LowUnit(c))[2..] + rest;
    assert r[0] == '\\' && r[1] == 'u';
  }

  lemma ReadShortOfEscape(c: char, rest: string)
    requires ShortFor(c).Some?
    ensures ReadEscape([ShortFor(c).value] + rest) == Good(c, rest)
  {
    assert ([ShortFor(c).value] + rest)[1..] == rest;
  }

  lemma ReadUnicodeStep(digits: string, rest: string)
    ensures ReadEscape("u" + digits + rest) == ReadUnicode(digits + rest)
  {
    assert ("u" + digits + rest)[1..] == digits + rest;
  }

  lemma PairDigits(high: string, low: string, rest: string)
    requires |high| >= 2
    ensures (high + low)[2..] == high[2..] + low && high[2..] + low + rest == high[2..] + (low + rest)
  {
  }

  lemma ReadEscapeOfEscapeChar(c: char, rest: string)
    requires !IsPlain(c)
    ensures EscapeChar(c)[0] == '\\'
    ensures ReadEscape(EscapeChar(c)[1..] + rest) == Good(c, rest)
  {
    var e := EscapeChar(c);
    if ShortFor(c).Some? {
      ReadShortOfEscape(c, rest);
      assert e[1..] == [ShortFor(c).value];
    } else {
      var digits := e[2..];
      assert e[1..] == "u" + digits;
      ReadUnicodeStep(digits, rest);
      if c as int < 0x10000 {
        ReadUnitOfEscape(c as int, rest);
      } else {
        ReadPairOfEscape(c, rest);
        PairDigits(UnitEscape(HighUnit(c)), UnitEscape(LowUnit(c)), rest);
      }
    }
  }

  lemma {:induction false} ReadPlainChar(c: char, tail: string)
    requires IsPlain(c) && ReadChars(tail).Good?
    ensures ReadChars([c] + tail) == Good([c] + ReadChars(tail).value, ReadChars(tail).rest)
  {
    assert ([c] + tail)[1..] == tail;
  }

  /** An escape in front, whatever its text: only what it reads as matters. */
  lemma {:induction false} ReadEscapedChar(escape: string, c: char, tail: string)
    requires Head(escape, '\\') && ReadEscape(escape[1..] + tail) == Good(c, tail) && ReadChars(tail).Good?
    ensures ReadChars(escape + tail) == Good([c] + ReadChars(tail).value, ReadChars(tail).rest)
  {
    assert (escape + tail)[1..] == escape[1..] + tail;
  }

  lemma {:induction false} ReadCharsStep(c: char, tail: string)
    requires ReadChars(tail).Good?
    ensures ReadChars(EscapeChar(c) + tail) == Good([c] + ReadChars(tail).value, ReadChars(tail).rest)
  {
    if IsPlain(c) {
      ReadPlainChar(c, tail);
    } else {
      ReadEscapeOfEscapeChar(c, tail);
      ReadEscapedChar(EscapeChar(c), c, tail);
    }
  }

  lemma {:induction false} ReadCharsOfEscape(s: string, rest: string)
    ensures ReadChars(Escape(s) + ("\"" + rest)) == Good(s, rest)
  {
    if s == "" {
      assert Escape(s) + ("\"" + rest) == "\"" + rest;
      assert ("\"" + rest)[1..] == rest;
    } else {
      var tail := Escape(s[1..]) + ("\"" + rest);
      ReadCharsOfEscape(s[1..], rest);
      ReadCharsStep(s[0], tail);
      Assoc(EscapeChar(s[0]), Escape(s[1..]), "\"" + rest);
      assert s == [s[0]] + s[1..];
    }
  }

  /** A quoted string reads back from just behind its opening quote. */
  lemma ReadCharsOfQuote(s: string, rest: string)
    ensures Head(Quote(s) + rest, '\"')
    ensures ReadChars((Quote(s) + rest)[1..]) == Good(s, rest)
  {
    ReadCharsOfEscape(s, rest);
    assert (Quote(s) + rest)[1..] == Escape(s) + ("\"" + rest);
  }

  lemma ReadValueOfPrint(v: Option<string>, rest: string)
    ensures var text := PrintValue(v) + rest; ReadValue(text) == Good(v, rest) && SkipSpace(text) == text
  {
    var text := PrintValue(v) + rest;
    if v.None? {
      assert text[4..] == rest && text[..4] == "null";
    } else {
      ReadCharsOfQuote(v.value, rest);
      assert |text| >= 4 ==> text[..4][0] != "null"[0];
    }
  }

  lemma {:induction false} ReadMemberParts(text: string, key: string, tail: string, v: Option<string>, rest: string)
    requires Head(text, '\"') && ReadChars(text[1..]) == Good(key, [':'] + tail)
    requires SkipSpace(tail) == tail && ReadValue(tail) == Good(v, rest)
    ensures ReadMember(text) == Good(Member(key, v), rest)
  {
    assert ([':'] + tail)[1..] == tail;
  }

  lemma ReadMemberOfPrint(m: Member, rest: string)
    ensures var text := PrintMember(m) + rest; ReadMember(text) == Good(m, rest) && Head(text, '\"')
  {
    var tail := PrintValue(m.value) + rest;
    Assoc(Quote(m.key) + [':'], PrintValue(m.value), rest);
    Assoc(Quote(m.key), [':'], tail);
    ReadCharsOfQuote(m.key, [':'] + tail);
    ReadValueOfPrint(m.value, rest);
    ReadMemberParts(PrintMember(m) + rest, m.key, tail, m.value, rest);
  }

  lemma {:induction false} ReadRestParts(member: string, m: Member, tail: string)
    requires ReadMember(member) == Good(m, tail) && Head(member, '\"') && ReadRest(tail).Some?
    ensures ReadRest([','] + member) == Some([m] + ReadRest(tail).value)
    ensures ReadObject(['{'] + member) == Some([m] + ReadRest(tail).value)
  {
    assert ([','] + member)[1..] == member;
    assert (['{'] + member)[1..] == member;
  }

  /** One more member in front of members that read back. */
  lemma {:induction false} ReadOneMore(m: Member, rest: string, ms: seq<Member>)
    requires ReadRest(rest) == Some(ms)
    ensures ReadRest([','] + PrintMember(m) + rest) == Some([m] + ms)
    ensures ReadObject(['{'] + PrintMember(m) + rest) == Some([m] + ms)
  {
    ReadMemberOfPrint(m, rest);
    ReadRestParts(PrintMember(m) + rest, m, rest);
    Assoc([','], PrintMember(m), rest);
    Assoc(['{'], PrintMember(m), rest);
  }

  lemma ReadEnd()
    ensures ReadRest(PrintRest([])) == Some([])
  {
    assert PrintRest([])[1..] == "";
  }

  lemma {:induction false} ReadRestStep(ms: seq<Member>)
    requires ms != [] && ReadRest(PrintRest(ms[1..])) == Some(ms[1..])
    ensures ReadRest(PrintRest(ms)) == Some([ms[0]] + ms[1..])
  {
    ReadOneMore(ms[0], PrintRest(ms[1..]), ms[1..]);
    assert PrintRest(ms) == [','] + PrintMember(ms[0]) + PrintRest(ms[1..]);
  }

  lemma {:induction false} ReadRestOfPrint(ms: seq<Member>)
    ensures ReadRest(PrintRest(ms)) == Some(ms)
  {
    if ms == [] {
      ReadEnd();
    } else {
      ReadRestOfPrint(ms[1..]);
      ReadRestStep(ms);
      assert ms == [ms[0]] + ms[1..];
    }
  }

  lemma ReadEmptyObject()
    ensures ReadObject("{}") == Some([])
  {
    assert "{}"[1..] == "}" && "}"[1..] == "";
  }

  /** Every printed object reads back member for member, in order. */
  lemma ReadObjectOfPrint(ms: seq<Member>)
    ensures ReadObject(PrintObject(ms)) == Some(ms)
  {
    if ms == [] {
      ReadEmptyObject();
    } else {
      ReadRestOfPrint(ms[1..]);
      ReadOneMore(ms[0], PrintRest(ms[1..]), ms[1..]);
      assert ms == [ms[0]] + ms[1..];
    }
  }

  // ---------- Printed text is ASCII ----------

  predicate Ascii(s: string) { forall i | 0 <= i < |s| :: s[i] as int < 128 }

  lemma {:induction false} EscapeIsAscii(s: string)
    ensures Ascii(Escape(s))
  {
    if s != "" {
      EscapeIsAscii(s[1..]);
      assert Ascii(EscapeChar(s[0]));
    }
  }

  lemma PrintMemberIsAscii(m: Member)
    ensures Ascii(PrintMember(m))
  {
    EscapeIsAscii(m.key);
    if m.value.Some? { EscapeIsAscii(m.value.value); }
  }

  lemma {:induction false} PrintRestIsAscii(ms: seq<Member>)
    ensures Ascii(PrintRest(ms))
  {
    if ms != [] {
      PrintMemberIsAscii(ms[0]);
      PrintRestIsAscii(ms[1..]);
    }
  }

  lemma PrintObjectIsAscii(ms: seq<Member>)
    ensures Ascii(PrintObject(ms))
  {
    if ms != [] {
      PrintMemberIsAscii(ms[0]);
      PrintRestIsAscii(ms[1..]);
    }
  }

  // ---------- The text itself ----------

  predicate IsLowerHex(c: char) { '0' <= c <= '9' || 'a' <= c <= 'f' }

  function LowerHex(c: char): int
    requires IsLowerHex(c)
  {
    if c <= '9' then c as int - '0' as int else c as int - 'a' as int + 10
  }

  /** `\uXXXX` of a number: four lower-case digits, the most significant first. */
  predicate IsUnit(s: string, u: int) {
    && |s| == 6 && s[0] == '\\' && s[1] == 'u'
    && IsLowerHex(s[2]) && IsLowerHex(s[3]) && IsLowerHex(s[4]) && IsLowerHex(s[5])
    && LowerHex(s[2]) * 0x1000 + LowerHex(s[3]) * 0x100 + LowerHex(s[4]) * 0x10 + LowerHex(s[5]) == u
  }

  lemma HexCharIsLower(d: nat)
    requires d < 16
    ensures IsLowerHex(HexChar(d)) && LowerHex(HexChar(d)) == d
  {
  }

  lemma DigitsAreUnit(a: nat, b: nat, c: nat, d: nat)
    requires a < 16 && b < 16 && c < 16 && d < 16
    ensures IsUnit(['\\', 'u', HexChar(a), HexChar(b), HexChar(c), HexChar(d)],
                   a * 0x1000 + b * 0x100 + c * 0x10 + d)
  {
    HexCharIsLower(a);
    HexCharIsLower(b);
    HexCharIsLower(c);
    HexCharIsLower(d);
  }

  lemma UnitEscapeIsUnit(u: nat)
    requires u < 0x10000
    ensures IsUnit(UnitEscape(u), u)
  {
    HexSplit(u);
    DigitsAreUnit(u / 0x1000, u / 0x100 % 16, u / 16 % 16, u % 16);
  }

  /** What a string's text holds for a character: itself if it is printable ASCII,
      but quote and backslash; one of seven short escapes; */
  lemma EscapeOfAscii(c: char)
    ensures ' ' <= c <= '~' && c != '\"' && c != '\\' ==> EscapeChar(c) == [c]
    ensures c == '\"' ==> EscapeChar(c) == ['\\', '\"']
    ensures c == '\\' ==> EscapeChar(c) == ['\\', '\\']
    ensures c == '\n' ==> EscapeChar(c) == ['\\', 'n']
    ensures c == '\r' ==> EscapeChar(c) == ['\\', 'r']
    ensures c == '\t' ==> EscapeChar(c) == ['\\', 't']
    ensures c as int == 8 ==> EscapeChar(c) == ['\\', 'b']
    ensures c as int == 12 ==> EscapeChar(c) == ['\\', 'f']
  {
  }

  /** else its number, */
  lemma EscapeOfOthers(c: char)
    requires (c < ' ' && c as int !in {8, 9, 10, 12, 13}) || '~' as int < c as int < 0x10000
    ensures IsUnit(EscapeChar(c), c as int)
  {
    UnitEscapeIsUnit(c as int);
  }

  /** beyond the first plane as a pair of surrogates. */
  lemma EscapeOfPair(c: char) returns (h: int, l: int)
    requires c as int >= 0x10000
    ensures |EscapeChar(c)| == 12 && IsUnit(EscapeChar(c)[..6], h) && IsUnit(EscapeChar(c)[6..], l)
    ensures 0xD800 <= h < 0xDC00 && 0xDC00 <= l < 0xE000
    ensures 0x10000 + (h - 0xD800) * 0x400 + (l - 0xDC00) == c as int
  {
    h, l := HighUnit(c), LowUnit(c);
    UnitEscapeIsUnit(h);
    UnitEscapeIsUnit(l);
    assert EscapeChar(c) == UnitEscape(h) + UnitEscape(l);
  }

  lemma {:induction false} EscapeCons(c: char, t: string)
    ensures Escape([c] + t) == EscapeChar(c) + Escape(t)
  {
    assert ([c] + t)[1..] == t;
  }

  lemma CutFirst(s: string, t: string)
    requires s != ""
    ensures s == [s[0]] + s[1..] && s + t == [s[0]] + (s[1..] + t)
  {
  }

  /** Each character is escaped by itself. */
  lemma {:induction false} EscapeConcat(s: string, t: string)
    ensures Escape(s + t) == Escape(s) + Escape(t)
  {
    if s == "" {
      assert s + t == t;
    } else {
      var c, r := s[0], s[1..];
      EscapeConcat(r, t);
      EscapeCons(c, r);
      EscapeCons(c, r + t);
      CutFirst(s, t);
      Assoc(EscapeChar(c), Escape(r), Escape(t));
    }
  }

  predicate NoSpaceIn(m: Member) { ' ' !in m.key && (m.value.Some? ==> ' ' !in m.value.value) }

  predicate Tight(s: string) { forall i | 0 <= i < |s| :: !IsJsonSpace(s[i]) }

  lemma EscapeCharIsTight(c: char)
    requires c != ' '
    ensures Tight(EscapeChar(c))
  {
  }

  lemma {:induction false} EscapeIsTight(s: string)
    requires ' ' !in s
    ensures Tight(Escape(s))
  {
    if s != "" {
      EscapeCharIsTight(s[0]);
      EscapeIsTight(s[1..]);
    }
  }

  lemma PrintMemberIsTight(m: Member)
    requires NoSpaceIn(m)
    ensures Tight(PrintMember(m))
  {
    EscapeIsTight(m.key);
    if m.value.Some? { EscapeIsTight(m.value.value); }
  }

  lemma {:induction false} PrintRestIsTight(ms: seq<Member>)
    requires forall m | m in ms :: NoSpaceIn(m)
    ensures Tight(PrintRest(ms))
  {
    if ms != [] {
      PrintMemberIsTight(ms[0]);
      PrintRestIsTight(ms[1..]);
    }
  }

  /** The text is compact: it has no white space but the spaces of its strings. */
  lemma PrintObjectIsTight(ms: seq<Member>)
    requires forall m | m in ms :: NoSpaceIn(m)
    ensures Tight(PrintObject(ms))
  {
    if ms != [] {
      PrintMemberIsTight(ms[0]);
      PrintRestIsTight(ms[1..]);
    }
  }
}
