/** The time window of a Tele2 listing: its start may be at most a year ago when a
    page is asked for. The routing crawl and the statistics fix the start once
    and then page on, while the clock moves. Times are whole seconds. */
module Tele2Window {
  import opened Option
  import opened Paging
  import opened Adapters
  import opened Stats

  const YEAR := 365 * 86400

  /** Reading and writing dates. */
  datatype Dates = Dates(parse: string -> Option<int>, format: int -> string)

  ghost predicate Faithful(d: Dates) {
    forall t :: d.parse(d.format(t)) == Some(t) && NoBar(d.format(t)) && d.format(t) != ""
  }

  /** Where the window starts: at the filter's date, or else the cursor's. */
  function SinceText(d: Dates, filter: Option<int>, cursor: Option<string>): Option<string> {
    if filter.Some? then Some(d.format(filter.value)) else CursorFields(cursor).since
  }

  /** Where it ends: at the cursor's date, or else a year after the start. */
  function TillText(d: Dates, since: int, cursor: Option<string>): string {
    var till := CursorFields(cursor).till;
    if till.Some? && till.value != "" then till.value else d.format(since + YEAR)
  }

  predicate Refused(since: int, till: int, now: int) { since > now || now - since > YEAR || till - since > YEAR }

  /** A page with the checks on its window, `filter` being the start that the
      caller's filters ask for. */
  function CheckedPage(list: seq<Sim>, d: Dates, filter: Option<int>, cursor: Option<string>, limit: int,
                       now: int): Fetch {
    var text := SinceText(d, filter, cursor);
    if text.None? || text.value == "" || d.parse(text.value).None? then Failed
    else
      var since := d.parse(text.value).value;
      var till := TillText(d, since, cursor);
      if d.parse(till).None? || Refused(since, d.parse(till).value, now) then Failed
      else
        var page, size := CursorFields(cursor).page, Tele2Size(limit);
        PageStart(page, size);
        Page(Slice(list, (page - 1) * size, size),
             if page * size < |list| then Some(FormatCursor(page + 1, text.value, till)) else None)
  }

  /** The window a cursor stands for. */
  predicate HasWindow(d: Dates, filter: Option<int>, cursor: Option<string>, since: int, till: int) {
    && SinceText(d, filter, cursor) == Some(d.format(since))
    && TillText(d, since, cursor) == d.format(till)
  }

  /** Apart from the checks it is the page of the adapter without a clock. */
  lemma CheckedPageIsTele2Page(list: seq<Sim>, d: Dates, filter: Option<int>, cursor: Option<string>, limit: int,
                               now: int)
    requires Faithful(d)
    ensures var w := Window(if filter.Some? then Some(d.format(filter.value)) else None, None,
                            s => if d.parse(s).Some? then d.format(d.parse(s).value + YEAR) else "");
            var f := CheckedPage(list, d, filter, cursor, limit, now);
            f.Failed? || f == Tele2Page(list, w, cursor, limit)
  {
  }

  /** Every reason to refuse a window: a start in the future, a start more than a year
      ago, more than a year from start to end. */
  lemma RefusedWindows(list: seq<Sim>, d: Dates, filter: Option<int>, cursor: Option<string>, limit: int,
                       since: int, till: int, now: int)
    requires Faithful(d) && HasWindow(d, filter, cursor, since, till)
    ensures CheckedPage(list, d, filter, cursor, limit, now).Failed? <==>
            since > now || now > since + 31536000 || till > since + 31536000
  {
  }

  /** Without a start, or with dates that cannot be read, there is no page either. */
  lemma RefusedTexts(list: seq<Sim>, d: Dates, page: PageNumber, since: string, till: string, limit: int, now: int)
    requires NoBar(since) && NoBar(till) && till != ""
    requires since == "" || d.parse(since).None? || d.parse(till).None?
    ensures CheckedPage(list, d, None, Some(FormatCursor(page, since, till)), limit, now).Failed?
    ensures CheckedPage(list, d, None, None, limit, now).Failed?
  {
    CursorFieldsOfFormat(page, since, till);
  }

  /** Which window a request has: the filter's start counts before the cursor's, and
      a year from the start on is put in for a missing end. */
  lemma WindowOfCursor(d: Dates, page: PageNumber, since: int, till: int, start: int)
    requires Faithful(d)
    ensures var c := Some(FormatCursor(page, d.format(since), d.format(till)));
            HasWindow(d, None, c, since, till) && HasWindow(d, Some(start), c, start, till)
    ensures HasWindow(d, Some(start), None, start, start + 31536000)
  {
    CursorFieldsOfFormat(page, d.format(since), d.format(till));
  }

  /** A page keeps the window, and is refused exactly when more than a year has
      passed since its start. */
  lemma PageOfWindow(list: seq<Sim>, d: Dates, filter: Option<int>, cursor: Option<string>, limit: int,
                     since: int, till: int, now: int)
    requires Faithful(d) && HasWindow(d, filter, cursor, since, till) && till - since <= YEAR && since <= now
    ensures var f, page := CheckedPage(list, d, filter, cursor, limit, now), CursorFields(cursor).page;
            (f.Failed? <==> now > since + YEAR)
            && (f.Page? ==> (f.next.Some? <==> page * Tele2Size(limit) < |list|))
            && (f.Page? && f.next.Some? ==>
                  HasWindow(d, filter, f.next, since, till) && CursorFields(f.next).page == page + 1)
  {
    CursorFieldsOfFormat(CursorFields(cursor).page + 1, d.format(since), d.format(till));
  }

  // ---------- Paging on while the clock moves ----------

  /** Page after page, each at its time: did the listing come to its end? */
  function Walk(list: seq<Sim>, d: Dates, filter: Option<int>, cursor: Option<string>, limit: int,
                times: seq<int>): bool
    decreases |times|
  {
    if times == [] then false
    else match CheckedPage(list, d, filter, cursor, limit, times[0])
      case Failed => false
      case Page(_, next) => next.None? || Walk(list, d, filter, next, limit, times[1..])
  }

  /** How many pages there are from a page on. */
  function PagesFrom(length: nat, size: nat, page: nat): (n: nat)
    requires size > 0
    ensures n >= 1
    decreases length - page * size
  {
    if page * size < length then
      assert (page + 1) * size == page * size + size;
      1 + PagesFrom(length, size, page + 1)
    else 1
  }

  /** The first n pages are asked for in time. */
  predicate AllBy(times: seq<int>, n: nat, latest: int)
    requires n <= |times|
  {
    forall k | 0 <= k < n :: times[k] <= latest
  }

  lemma FirstBy(times: seq<int>, n: nat, latest: int)
    requires 0 < n <= |times|
    ensures AllBy(times, n, latest) <==> times[0] <= latest && AllBy(times[1..], n - 1, latest)
  {
    forall k | 1 <= k < n ensures times[k] == times[1..][k - 1] {}
  }

  /** It does exactly when every page is asked for within a year of the start. */
  lemma {:induction false} WalkEndsIff(list: seq<Sim>, d: Dates, filter: Option<int>, cursor: Option<string>,
                                       limit: int, since: int, till: int, times: seq<int>)
    requires Faithful(d) && HasWindow(d, filter, cursor, since, till) && till - since <= YEAR
    requires forall t | t in times :: since <= t
    requires |times| >= PagesFrom(|list|, Tele2Size(limit), CursorFields(cursor).page)
    ensures var n := PagesFrom(|list|, Tele2Size(limit), CursorFields(cursor).page);
            Walk(list, d, filter, cursor, limit, times) <==> AllBy(times, n, since + YEAR)
    decreases |times|
  {
    var f := CheckedPage(list, d, filter, cursor, limit, times[0]);
    assert times[0] in times;
    PageOfWindow(list, d, filter, cursor, limit, since, till, times[0]);
    FirstBy(times, PagesFrom(|list|, Tele2Size(limit), CursorFields(cursor).page), since + YEAR);
    if f.Page? && f.next.Some? {
      assert forall t | t in times[1..] :: t in times;
      WalkEndsIff(list, d, filter, f.next, limit, since, till, times[1..]);
    }
  }

  /** The cursor the routing crawl makes up at a second, and goes on from. */
  function CrawlCursor(d: Dates, page: nat, start: int): Option<string> {
    Some(FormatCursor(page, d.format(start - YEAR), d.format(start)))
  }

  lemma CrawlWindow(d: Dates, page: nat, start: int)
    requires Faithful(d) && page >= 1
    ensures HasWindow(d, None, CrawlCursor(d, page, start), start - YEAR, start)
    ensures CursorFields(CrawlCursor(d, page, start)).page == page
  {
    CursorFieldsOfFormat(page, d.format(start - YEAR), d.format(start));
  }

  /** The routing crawl puts the start a year back to the second. So it ends
      exactly when all its pages of 50 are asked for within the very second it
      began in. */
  lemma {:induction false} CrawlEndsIff(list: seq<Sim>, d: Dates, start: int, times: seq<int>)
    requires Faithful(d) && |times| >= PagesFrom(|list|, 50, 1) && forall t | t in times :: start <= t
    ensures Walk(list, d, None, CrawlCursor(d, 1, start), 500, times) <==>
            forall k | 0 <= k < PagesFrom(|list|, 50, 1) :: times[k] == start
  {
    CrawlWindow(d, 1, start);
    WalkEndsIff(list, d, None, CrawlCursor(d, 1, start), 500, start - YEAR, start, times);
    NotLaterIsSame(times, start, PagesFrom(|list|, 50, 1));
  }

  lemma NotLaterIsSame(times: seq<int>, start: int, n: nat)
    requires n <= |times| && forall t | t in times :: start <= t
    ensures (forall k | 0 <= k < n :: times[k] <= start) <==> forall k | 0 <= k < n :: times[k] == start
  {
    forall k | 0 <= k < n ensures start <= times[k] { assert times[k] in times; }
  }

  /** And a crawl that is taken up in a later second is refused at once. */
  lemma ResumedCrawlIsRefused(list: seq<Sim>, d: Dates, page: nat, start: int, now: int)
    requires Faithful(d) && page >= 1 && now > start
    ensures CheckedPage(list, d, None, CrawlCursor(d, page, start), 500, now).Failed?
  {
    CrawlWindow(d, page, start);
    PageOfWindow(list, d, None, CrawlCursor(d, page, start), 500, start - YEAR, start, now);
  }

  // ---------- Statistics ----------

  /** Tele2 as the statistics see it, page k being asked for at `clock(k)`. */
  function Clocked(list: seq<Sim>, d: Dates, filter: Option<int>, clock: nat -> int,
                   keep: Sim -> bool, describe: Sim -> Sub): Provider {
    Provider(c => CheckedPage(list, d, filter, c, PAGE_LIMIT, clock(CursorFields(c).page)), keep, describe)
  }

  /** The first pages, at most n of them, are asked for in time. */
  predicate InTime(clock: nat -> int, page: nat, n: nat, latest: int) {
    forall k: nat | page <= k < page + n :: clock(k) <= latest
  }

  lemma FirstInTime(clock: nat -> int, page: nat, n: nat, latest: int)
    requires n > 0
    ensures InTime(clock, page, n, latest) <==> clock(page) <= latest && InTime(clock, page + 1, n - 1, latest)
  {
  }

  /** Whether a cursor stands for a page number, and how many pages there are from one on. */
  type AtPage = (Option<string>, nat) -> bool
  type Totals = nat -> nat

  /** Page k, in terms of its number: too late, or the last one, or followed by the next. */
  ghost predicate PageAt(f: Fetch, at: AtPage, total: Totals, clock: nat -> int, k: nat, latest: int) {
    && total(k) > 0
    && (f.Failed? <==> clock(k) > latest)
    && (f.Page? ==> (IsOver(f.next) <==> total(k) == 1))
    && (f.Page? && !IsOver(f.next) ==> at(f.next, k + 1) && total(k) == 1 + total(k + 1))
  }

  function InWindow(d: Dates, filter: Option<int>, since: int, till: int): AtPage {
    (c, k: nat) => HasWindow(d, filter, c, since, till) && CursorFields(c).page == k
  }

  function PagesOf(list: seq<Sim>): Totals { (k: nat) => PagesFrom(|list|, 50, k) }

  lemma {:induction false} ClockedPage(list: seq<Sim>, d: Dates, filter: Option<int>, clock: nat -> int,
                                       p: Provider, cursor: Option<string>, since: int, till: int)
    requires Faithful(d) && p == Clocked(list, d, filter, clock, p.keep, p.describe)
    requires HasWindow(d, filter, cursor, since, till) && till - since <= YEAR && forall k: nat :: since <= clock(k)
    ensures var f, page := p.fetch(cursor), CursorFields(cursor).page;
            (f.Failed? <==> clock(page) > since + YEAR)
            && (f.Page? ==> (IsOver(f.next) <==> PagesFrom(|list|, 50, page) == 1))
            && (f.Page? && !IsOver(f.next) ==>
                  HasWindow(d, filter, f.next, since, till) && CursorFields(f.next).page == page + 1
                  && PagesFrom(|list|, 50, page) == 1 + PagesFrom(|list|, 50, page + 1))
  {
    PageOfWindow(list, d, filter, cursor, PAGE_LIMIT, since, till, clock(CursorFields(cursor).page));
  }

  lemma PageAtNumber(f: Fetch, at: AtPage, total: Totals, clock: nat -> int, k: nat, latest: int, now: int,
                     pages: nat, more: nat)
    requires now == clock(k) && pages == total(k) > 0 && more == total(k + 1)
    requires (f.Failed? <==> now > latest) && (f.Page? ==> (IsOver(f.next) <==> pages == 1))
    requires f.Page? && !IsOver(f.next) ==> at(f.next, k + 1) && pages == 1 + more
    ensures PageAt(f, at, total, clock, k, latest)
  {
  }

  /** What reading pages says about the first page and the pages after it. */
  lemma PagesAfterFirst(p: Provider, cursor: Option<string>, n: nat)
    requires n > 0
    ensures var r, f := Pages(p, cursor, n), p.fetch(cursor);
            if f.Failed? then r.Raised?
            else if IsOver(f.next) then r == Read(f.items, true)
            else var more := Pages(p, f.next, n - 1);
                 (r.Read? <==> more.Read?) && (r.Read? ==> r.ended == more.ended)
  {
  }

  /** The reading of n of all pages from this one on: it raises exactly if one of the
      pages that it comes to is too late, and comes to the end if n are enough. */
  predicate ReadInTime(r: Reading, clock: nat -> int, page: nat, n: nat, total: nat, latest: int) {
    && (r.Read? <==> InTime(clock, page, Min(n, total), latest))
    && (r.Read? ==> (r.ended <==> total <= n))
  }

  lemma OnePageMore(r: Reading, more: Reading, clock: nat -> int, page: nat, n: nat, total: nat, latest: int)
    requires n > 0 && total > 0 && clock(page) <= latest
    requires (r.Read? <==> more.Read?) && (r.Read? ==> r.ended == more.ended)
    requires ReadInTime(more, clock, page + 1, n - 1, total - 1, latest)
    ensures ReadInTime(r, clock, page, n, total, latest)
  {
    FirstInTime(clock, page, Min(n, total), latest);
  }

  lemma PageTooLate(r: Reading, clock: nat -> int, page: nat, n: nat, total: nat, latest: int)
    requires n > 0 && total > 0 && clock(page) > latest && r.Raised?
    ensures ReadInTime(r, clock, page, n, total, latest)
  {
    FirstInTime(clock, page, Min(n, total), latest);
  }

  lemma LastPage(r: Reading, clock: nat -> int, page: nat, n: nat, latest: int)
    requires n > 0 && clock(page) <= latest && r.Read? && r.ended
    ensures ReadInTime(r, clock, page, n, 1, latest)
  {
  }

  lemma {:induction false} PagesInTime(p: Provider, at: AtPage, total: Totals, clock: nat -> int, latest: int,
                                       cursor: Option<string>, page: nat, n: nat)
    requires at(cursor, page) && forall c, k: nat | at(c, k) :: PageAt(p.fetch(c), at, total, clock, k, latest)
    ensures ReadInTime(Pages(p, cursor, n), clock, page, n, total(page), latest)
    decreases n
  {
    var f := p.fetch(cursor);
    assert PageAt(f, at, total, clock, page, latest);
    if n > 0 {
      PagesAfterFirst(p, cursor, n);
      if f.Failed? {
        PageTooLate(Pages(p, cursor, n), clock, page, n, total(page), latest);
      } else if IsOver(f.next) {
        LastPage(Pages(p, cursor, n), clock, page, n, latest);
      } else {
        PagesInTime(p, at, total, clock, latest, f.next, page + 1, n - 1);
        OnePageMore(Pages(p, cursor, n), Pages(p, f.next, n - 1), clock, page, n, total(page), latest);
      }
    }
  }

  /** The reading raises exactly if one of the pages that it comes to is too late. */
  lemma {:induction false} PagesRaiseIff(list: seq<Sim>, d: Dates, filter: Option<int>, clock: nat -> int,
                                         p: Provider, cursor: Option<string>, n: nat, since: int, till: int)
    requires Faithful(d) && p == Clocked(list, d, filter, clock, p.keep, p.describe)
    requires HasWindow(d, filter, cursor, since, till) && till - since <= YEAR && forall k: nat :: since <= clock(k)
    ensures var page := CursorFields(cursor).page;
            ReadInTime(Pages(p, cursor, n), clock, page, n, PagesFrom(|list|, 50, page), since + YEAR)
  {
    var at, total := InWindow(d, filter, since, till), PagesOf(list);
    forall c, k: nat | at(c, k) ensures PageAt(p.fetch(c), at, total, clock, k, since + YEAR) {
      ClockedPage(list, d, filter, clock, p, c, since, till);
      PageAtNumber(p.fetch(c), at, total, clock, k, since + YEAR, clock(k),
                   PagesFrom(|list|, 50, k), PagesFrom(|list|, 50, k + 1));
    }
    PagesInTime(p, at, total, clock, since + YEAR, cursor, CursorFields(cursor).page, n);
  }

  lemma {:induction false} PagesFromCount(length: nat, size: nat, page: nat, n: nat)
    requires size > 0 && n > 0
    ensures PagesFrom(length, size, page) <= n <==> length <= (page + n - 1) * size
    decreases n
  {
    assert (page + n - 1) * size == page * size + (n - 1) * size;
    assert (n - 1) * size >= 0;
    if page * size < length && n > 1 { PagesFromCount(length, size, page + 1, n - 1); }
  }

  /** The statistics take the bootstrap filters once, with a start one second less
      than a year back. They raise exactly if one of their pages, at most a
      hundred, is asked for later than one second after that; if they do not,
      they are partial exactly beyond 5,000 SIMs. */
  lemma {:induction false} StatisticsRaiseIff(list: seq<Sim>, d: Dates, start: int, clock: nat -> int,
                                              keep: Sim -> bool, describe: Sim -> Sub)
    requires Faithful(d) && forall k: nat :: start <= clock(k)
    ensures var r := Pages(Clocked(list, d, Some(start - YEAR + 1), clock, keep, describe), None, MAX_PAGES);
            (r.Raised? <==> exists k: nat :: 1 <= k <= Min(MAX_PAGES, PagesFrom(|list|, 50, 1)) && clock(k) > start + 1)
            && (r.Read? ==> (!r.ended <==> |list| > 5000))
  {
    var p := Clocked(list, d, Some(start - YEAR + 1), clock, keep, describe);
    assert HasWindow(d, Some(start - YEAR + 1), None, start - YEAR + 1, start + 1);
    PagesRaiseIff(list, d, Some(start - YEAR + 1), clock, p, None, MAX_PAGES, start - YEAR + 1, start + 1);
    PagesFromCount(|list|, 50, 1, MAX_PAGES);
  }
}
