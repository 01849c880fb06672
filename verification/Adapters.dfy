/** The cursor arithmetic of the three providers, over a stable native list. */
module Adapters {
  import opened Option
  import opened Text
  import opened Paging

  /** Up to n SIMs from an offset on. */
  function Slice(list: seq<Sim>, from: nat, n: nat): (r: seq<Sim>)
    ensures |r| <= n
  {
    if from >= |list| then [] else list[from..Min(from + n, |list|)]
  }

  // ---------- Offset cursors: Kite and Moabits ----------

  /** `max(int(cursor or "0"), 0)`, or 0 if that is no integer. */
  function Start(cursor: Option<string>): nat {
    var text := if cursor.None? || cursor.value == "" then "0" else cursor.value;
    var n := ParseInt(text);
    if n.None? then 0 else Max(n.value, 0)
  }

  function OffsetStream(list: seq<Sim>): Stream { Stream(list, c => Start(c)) }

  /** A full batch is taken to mean that there is more. */
  function KitePage(list: seq<Sim>, cursor: Option<string>, limit: int): Fetch {
    var start, batch := Start(cursor), Clamp(limit, 1, 1000);
    var subs := Slice(list, start, batch);
    Page(subs, if |subs| == batch then Some(Decimal(start + |subs|)) else None)
  }

  function MoabitsPage(rows: seq<Sim>, cursor: Option<string>, limit: int): Fetch {
    var offset, size := Start(cursor), Clamp(limit, 1, 500);
    var page := Slice(rows, offset, size);
    Page(page, if offset + size < |rows| then Some(Decimal(offset + |page|)) else None)
  }

  lemma {:induction false} StartOfDecimal(n: nat)
    ensures Start(Some(Decimal(n))) == n
  {
    ParseIntOfDecimal(n);
  }

  /** Kite pages through its list, also where the last batch is exactly full
      and the end shows only on an empty page after it. */
  lemma KiteMeets(list: seq<Sim>, cursor: Option<string>, limit: nat)
    requires OnTrack(OffsetStream(list), At(cursor))
    ensures Meets(OffsetStream(list), cursor, limit, KitePage(list, cursor, limit))
  {
    StartOfDecimal(Start(cursor) + |Slice(list, Start(cursor), Clamp(limit, 1, 1000))|);
  }

  lemma MoabitsMeets(list: seq<Sim>, cursor: Option<string>, limit: nat)
    requires OnTrack(OffsetStream(list), At(cursor))
    ensures Meets(OffsetStream(list), cursor, limit, MoabitsPage(list, cursor, limit))
  {
    StartOfDecimal(Start(cursor) + |Slice(list, Start(cursor), Clamp(limit, 1, 500))|);
  }

  /** No cursor, an empty one, one that is no number and a negative one all mean the
      start of the list. */
  lemma {:induction false} StartOfOthers(c: string, n: nat)
    ensures Start(None) == 0 && Start(Some("")) == 0 && Start(Some("-" + Decimal(n))) == 0
    ensures c != "" && ParseInt(c).None? ==> Start(Some(c)) == 0
  {
    ParseIntOfSigned(n);
    ParseIntOfDecimal(0);
    assert Decimal(0) == "0";
  }

  /** Kite fills its page up to the limit, at least 1 and at most 1000, as far as the
      list goes, and takes a full one to mean that there is more. */
  lemma KitePageIsFull(list: seq<Sim>, cursor: Option<string>, limit: int)
    ensures var f, left := KitePage(list, cursor, limit), |list| - Start(cursor);
            var size := if limit < 1 then 1 else if limit > 1000 then 1000 else limit;
            f.Page? && |f.items| == (if left < 0 then 0 else if left < size then left else size)
            && (f.next.Some? <==> left >= size)
  {
  }

  /** Moabits up to the limit, at most 500, and knows whether there is more. */
  lemma MoabitsPageIsFull(list: seq<Sim>, cursor: Option<string>, limit: int)
    ensures var f, left := MoabitsPage(list, cursor, limit), |list| - Start(cursor);
            var size := if limit < 1 then 1 else if limit > 500 then 500 else limit;
            f.Page? && |f.items| == (if left < 0 then 0 else if left < size then left else size)
            && (f.next.Some? <==> left > size)
  {
  }

  // ---------- Filters that adapters act on ----------

  /** What a request asks for beside a status: the start and the end of a time
      window, and whether it names an IMSI, an MSISDN or a custom field. */
  datatype Filters = Filters(since: Option<string>, till: Option<string>, device: bool)

  /** Tele2 wants a start of the window; Moabits takes neither a status nor one of
      the device filters. */
  predicate Takes(p: string, f: Filters, status: bool) {
    && (p == "tele2" ==> f.since.Some?)
    && (p == "moabits" ==> !status && !f.device)
  }

  // ---------- Page-number cursors: Tele2 ----------

  /** `cursor.split("|")` */
  function Split(s: string): (parts: seq<string>)
    ensures |parts| >= 1
  {
    if s == "" then [""]
    else
      var rest := Split(s[1..]);
      if s[0] == '|' then [""] + rest else [[s[0]] + rest[0]] + rest[1..]
  }

  type PageNumber = n: nat | n >= 1 witness 1

  datatype Fields = Fields(page: PageNumber, since: Option<string>, till: Option<string>)

  function ReadPart(f: Fields, part: string): Fields {
    if StartsWith(part, "page:") then
      var n := ParseInt(part[5..]);
      f.(page := if n.None? then 1 else Max(n.value, 1))
    else if StartsWith(part, "since:") then f.(since := Some(part[6..]))
    else if StartsWith(part, "till:") then f.(till := Some(part[5..]))
    else f
  }

  function ReadParts(f: Fields, parts: seq<string>): Fields {
    if parts == [] then f
    else ReadPart(ReadParts(f, parts[..|parts| - 1]), parts[|parts| - 1])
  }

  function CursorFields(cursor: Option<string>): Fields {
    if cursor.None? || cursor.value == "" then Fields(1, None, None)
    else ReadParts(Fields(1, None, None), Split(cursor.value))
  }

  /** The parsing loop. */
  method ReadCursor(cursor: Option<string>) returns (page: PageNumber, since: Option<string>, till: Option<string>)
    ensures Fields(page, since, till) == CursorFields(cursor)
  {
    page, since, till := 1, None, None;
    if cursor.Some? && cursor.value != "" {
      var parts := Split(cursor.value);
      for k := 0 to |parts|
        invariant Fields(page, since, till) == ReadParts(Fields(1, None, None), parts[..k])
      {
        var part := parts[k];
        assert parts[..k + 1][..k] == parts[..k];
        PartKindsClash(part);
        if StartsWith(part, "page:") {
          var n := ParseInt(part[5..]);
          page := if n.None? then 1 else Max(n.value, 1);
        }
        if StartsWith(part, "since:") { since := Some(part[6..]); }
        if StartsWith(part, "till:") { till := Some(part[5..]); }
      }
      assert parts[..|parts|] == parts;
    }
  }

  lemma PartKindsClash(part: string)
    ensures StartsWith(part, "page:") ==> !StartsWith(part, "since:") && !StartsWith(part, "till:")
    ensures StartsWith(part, "since:") ==> !StartsWith(part, "till:")
  {
    if StartsWith(part, "page:") {
      PrefixesClash(part, "page:", "since:", 0);
      PrefixesClash(part, "page:", "till:", 0);
    }
    if StartsWith(part, "since:") { PrefixesClash(part, "since:", "till:", 0); }
  }

  function FormatCursor(page: nat, since: string, till: string): string {
    "page:" + Decimal(page) + "|" + ("since:" + since + "|" + ("till:" + till))
  }

  predicate NoBar(s: string) { '|' !in s }

  lemma {:induction false} SplitAtBar(a: string, b: string)
    requires NoBar(a)
    ensures Split(a) == [a] && Split(a + "|" + b) == [a] + Split(b)
  {
    var s := a + "|" + b;
    if a == "" {
      assert s[1..] == b;
    } else {
      assert s[1..] == a[1..] + "|" + b && s[0] == a[0] && a[0] in a;
      SplitAtBar(a[1..], b);
      assert [a[0]] + a[1..] == a;
    }
  }

  /** The page, since and till that go into a cursor come out again. */
  lemma CursorFieldsOfFormat(page: nat, since: string, till: string)
    requires page >= 1 && NoBar(since) && NoBar(till)
    ensures CursorFields(Some(FormatCursor(page, since, till))) == Fields(page, Some(since), Some(till))
  {
    var p, s, t := "page:" + Decimal(page), "since:" + since, "till:" + till;
    SplitAtBar(p, s + "|" + t);
    SplitAtBar(s, t);
    SplitAtBar(t, "");
    assert Split(FormatCursor(page, since, till)) == [p, s, t];
    assert p[5..] == Decimal(page) && s[6..] == since && t[5..] == till;
    ParseIntOfDecimal(page);
    ReadThreeParts(page, since, till);
  }

  lemma {:induction false} ReadThreeParts(page: nat, since: string, till: string)
    requires page >= 1
    ensures ReadParts(Fields(1, None, None), ["page:" + Decimal(page), "since:" + since, "till:" + till])
         == Fields(page, Some(since), Some(till))
  {
    var p, s, t := "page:" + Decimal(page), "since:" + since, "till:" + till;
    var start := Fields(1, None, None);
    assert p[..5] == "page:" && p[5..] == Decimal(page);
    assert s[..6] == "since:" && s[6..] == since;
    assert t[..5] == "till:" && t[5..] == till;
    PartKindsClash(p);
    PartKindsClash(s);
    PartKindsClash(t);
    ParseIntOfDecimal(page);
    assert [p, s, t][..2] == [p, s] && [p, s][..1] == [p] && [p][..0] == [];
    assert ReadParts(start, [p]) == Fields(page, None, None);
    assert ReadParts(start, [p, s]) == Fields(page, Some(since), None);
  }

  lemma {:induction false} SplitHasNoBars(s: string)
    ensures forall part | part in Split(s) :: NoBar(part)
  {
    if s != "" {
      SplitHasNoBars(s[1..]);
      var rest := Split(s[1..]);
      assert rest[0] in rest;
    }
  }

  lemma {:induction false} FieldsHaveNoBars(f: Fields, parts: seq<string>)
    requires (f.since.Some? ==> NoBar(f.since.value)) && (f.till.Some? ==> NoBar(f.till.value))
    requires forall part | part in parts :: NoBar(part)
    ensures var r := ReadParts(f, parts);
            (r.since.Some? ==> NoBar(r.since.value)) && (r.till.Some? ==> NoBar(r.till.value))
  {
    if parts != [] {
      FieldsHaveNoBars(f, parts[..|parts| - 1]);
      assert parts[|parts| - 1] in parts;
    }
  }

  /** The time window: what the filters say, and what is put in for a missing end. */
  datatype Window = Window(since: Option<string>, till: Option<string>, defaultTill: string -> string)

  predicate Formatted(w: Window) {
    && (w.since.Some? ==> NoBar(w.since.value) && w.since.value != "")
    && (w.till.Some? ==> NoBar(w.till.value) && w.till.value != "")
  }

  function Since(w: Window, cursor: Option<string>): string {
    if w.since.Some? then w.since.value
    else if CursorFields(cursor).since.Some? then CursorFields(cursor).since.value
    else ""
  }

  function Till(w: Window, cursor: Option<string>): string {
    var f := CursorFields(cursor);
    if w.till.Some? then w.till.value
    else if f.till.Some? && f.till.value != "" then f.till.value
    else w.defaultTill(Since(w, cursor))
  }

  function Tele2Size(limit: int): (n: nat) ensures 1 <= n <= 50 { Clamp(limit, 1, 50) }

  /** Without a start of the time window the call is refused. */
  function Tele2Page(list: seq<Sim>, w: Window, cursor: Option<string>, limit: int): Fetch {
    var page, size, since := CursorFields(cursor).page, Tele2Size(limit), Since(w, cursor);
    if since == "" then Failed
    else
      Page(Slice(list, (page - 1) * size, size),
           if page * size < |list| then Some(FormatCursor(page + 1, since, Till(w, cursor))) else None)
  }

  /** What a cursor stands for while every page has the same size. */
  function Tele2Pos(w: Window, size: nat, cursor: Option<string>): int {
    if Since(w, cursor) == "" then -1 else (CursorFields(cursor).page - 1) * size
  }

  function Tele2Stream(list: seq<Sim>, w: Window, size: nat): Stream {
    Stream(list, c => Tele2Pos(w, size, c))
  }

  /** The next page's cursor resolves to the next page number and the same window. */
  lemma Tele2NextFields(w: Window, cursor: Option<string>, page: nat)
    requires Formatted(w) && (forall s :: NoBar(w.defaultTill(s))) && page >= 1
    ensures CursorFields(Some(FormatCursor(page, Since(w, cursor), Till(w, cursor))))
         == Fields(page, Some(Since(w, cursor)), Some(Till(w, cursor)))
  {
    if cursor.Some? {
      SplitHasNoBars(cursor.value);
      FieldsHaveNoBars(Fields(1, None, None), Split(cursor.value));
    }
    CursorFieldsOfFormat(page, Since(w, cursor), Till(w, cursor));
  }

  /** A page number that cannot be read counts as the first page, as does one below 1. */
  lemma {:induction false} BadPageIsFirst(text: string, n: nat)
    requires NoBar(text) && ParseInt(text).None?
    ensures CursorFields(Some("page:" + text)) == Fields(1, None, None)
    ensures CursorFields(Some("page:-" + Decimal(n))) == Fields(1, None, None)
    ensures CursorFields(None) == Fields(1, None, None) && CursorFields(Some("")) == Fields(1, None, None)
  {
    ParseIntOfSigned(n);
    OnePart(text);
    OnePart("-" + Decimal(n));
    assert "page:-" + Decimal(n) == "page:" + ("-" + Decimal(n));
  }

  lemma {:induction false} OnePart(text: string)
    requires NoBar(text)
    ensures var n := ParseInt(text);
            CursorFields(Some("page:" + text)) == Fields(if n.None? then 1 else Max(n.value, 1), None, None)
  {
    var part := "page:" + text;
    SplitAtBar(part, "");
    assert part[..5] == "page:" && part[5..] == text;
    var parts, none: seq<string> := [part], [];
    assert parts[..0] == none;
    assert ReadParts(Fields(1, None, None), parts) == ReadPart(Fields(1, None, None), part);
  }

  /** The window's start is the filter's, whatever the cursor says, and else the
      cursor's; so is its end, and without either what is put in for the start. */
  lemma WindowOfRequest(w: Window, page: PageNumber, since: string, till: string)
    requires NoBar(since) && NoBar(till) && till != ""
    ensures var c := Some(FormatCursor(page, since, till));
            Since(w, c) == (if w.since.Some? then w.since.value else since)
            && Till(w, c) == (if w.till.Some? then w.till.value else till)
    ensures w.since.None? ==> Since(w, None) == ""
    ensures w.since.Some? ==> Since(w, None) == w.since.value
    ensures w.since.Some? && w.till.None? ==> Till(w, None) == w.defaultTill(w.since.value)
    ensures w.till.Some? ==> Till(w, None) == w.till.value
  {
    CursorFieldsOfFormat(page, since, till);
  }

  /** Every page after the first has the first one's window. */
  lemma WindowStays(list: seq<Sim>, w: Window, cursor: Option<string>, limit: int)
    requires Formatted(w) && forall s :: NoBar(w.defaultTill(s)) && w.defaultTill(s) != ""
    requires var f := Tele2Page(list, w, cursor, limit); f.Page? && f.next.Some?
    ensures var f := Tele2Page(list, w, cursor, limit);
            Since(w, f.next) == Since(w, cursor) && Till(w, f.next) == Till(w, cursor)
            && CursorFields(f.next).page == CursorFields(cursor).page + 1
  {
    Tele2NextFields(w, cursor, CursorFields(cursor).page + 1);
  }

  lemma PageStart(page: PageNumber, size: nat)
    ensures (page - 1) * size + size == page * size && (page - 1) * size >= 0
  {
  }

  /** Tele2 pages through its list as long as the page size stays the same. */
  lemma Tele2Meets(list: seq<Sim>, w: Window, cursor: Option<string>, limit: nat)
    requires Formatted(w) && (forall s :: NoBar(w.defaultTill(s)))
    requires OnTrack(Tele2Stream(list, w, Tele2Size(limit)), At(cursor))
    ensures Meets(Tele2Stream(list, w, Tele2Size(limit)), cursor, limit, Tele2Page(list, w, cursor, limit))
  {
    var page, size := CursorFields(cursor).page, Tele2Size(limit);
    var f := Tele2Page(list, w, cursor, limit);
    Tele2NextFields(w, cursor, page + 1);
    PageStart(page, size);
    assert f.items == Slice(list, PageFrom(cursor, limit), size);
    if f.next.Some? {
      assert Tele2Pos(w, size, f.next) == page * size;
    }
  }

  /** Where a page starts and ends in the list. */
  function PageFrom(cursor: Option<string>, limit: int): nat {
    PageStart(CursorFields(cursor).page, Tele2Size(limit));
    (CursorFields(cursor).page - 1) * Tele2Size(limit)
  }

  /** Two pages in a row leave no gap and no overlap exactly when they have the
      same size: the page number alone does not tell where the last one ended. */
  lemma Tele2ContinuesIff(list: seq<Sim>, w: Window, cursor: Option<string>, limit: int, limit': int)
    requires Formatted(w) && (forall s :: NoBar(w.defaultTill(s)))
    requires var f := Tele2Page(list, w, cursor, limit); f.Page? && f.next.Some?
    ensures var f := Tele2Page(list, w, cursor, limit);
            PageFrom(f.next, limit') == PageFrom(cursor, limit) + |f.items| <==> Tele2Size(limit) == Tele2Size(limit')
  {
    var page, size := CursorFields(cursor).page, Tele2Size(limit);
    Tele2NextFields(w, cursor, page + 1);
    PageStart(page, size);
    FullSlice(list, PageFrom(cursor, limit), size);
    SameFactor(page, size, Tele2Size(limit'));
  }

  lemma FullSlice(list: seq<Sim>, from: nat, n: nat)
    requires from + n < |list|
    ensures |Slice(list, from, n)| == n
  {
  }

  lemma SameFactor(page: PageNumber, a: nat, b: nat)
    ensures page * a == page * b <==> a == b
  {
    if a < b { assert page * b == page * a + page * (b - a); }
    if b < a { assert page * a == page * b + page * (a - b); }
  }
}
