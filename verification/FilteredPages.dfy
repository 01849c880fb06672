/** A page of a real adapter under the filters of a request. */
module FilteredPages {
  import opened Option
  import opened Text
  import opened Cursors
  import opened Paging
  import opened Adapters
  import opened RealListing
  import opened Unique

  /** Where the window ends if neither the request nor the cursor says so. */
  type Ending = string -> string

  ghost predicate DatedEnding(ending: Ending) { forall s :: NoBar(ending(s)) }

  predicate DatedFilters(f: Filters) { Formatted(Window(f.since, f.till, s => "")) }

  /** Moabits refuses filters that it does not take; Tele2 does so page by page. */
  function FilteredPage(lists: Lists, f: Filters, status: bool, ending: Ending, p: string, c: Option<string>,
                        n: nat): Fetch {
    if p == "moabits" && !Takes(p, f, status) then Failed
    else RealPage(lists, Window(f.since, f.till, ending), p, c, n)
  }

  /** A bootstrap window that stands for these filters. */
  function WindowOf(f: Filters, ending: Ending): Window {
    if f.since.Some? then Window(f.since, f.till, ending) else AnyWindow()
  }

  lemma WindowIsBootstrap(f: Filters, ending: Ending)
    requires DatedFilters(f) && DatedEnding(ending)
    ensures Bootstrap(WindowOf(f, ending))
  {
  }

  /** An adapter that takes the filters answers as it does under that window. */
  lemma TakenPage(lists: Lists, f: Filters, status: bool, ending: Ending, p: string, c: Option<string>, n: nat)
    requires Takes(p, f, status)
    ensures FilteredPage(lists, f, status, ending, p, c, n) == RealPage(lists, WindowOf(f, ending), p, c, n)
  {
  }

  /** So it pages through its list, Tele2 in pages of one size. */
  lemma TakenPageMeets(lists: Lists, f: Filters, status: bool, ending: Ending, size: nat, p: string,
                       c: Option<string>, n: nat)
    requires IsProvider(p) && DatedFilters(f) && DatedEnding(ending) && Takes(p, f, status)
    requires (p == "tele2" ==> Tele2Size(n) == size) && OnTrack(StreamOf(lists, AnyWindow(), size, p), At(c))
    ensures Meets(StreamOf(lists, AnyWindow(), size, p), c, n, FilteredPage(lists, f, status, ending, p, c, n))
  {
    var w := WindowOf(f, ending);
    TakenPage(lists, f, status, ending, p, c, n);
    WindowsAgree(lists, AnyWindow(), w, size, p);
    RealAnswersMeet(lists, w, size, p, c, n);
  }

  /** One that does not fails on the first page. */
  lemma RefusedPage(lists: Lists, f: Filters, status: bool, ending: Ending, p: string, n: nat)
    requires IsProvider(p) && !Takes(p, f, status)
    ensures FilteredPage(lists, f, status, ending, p, None, n).Failed?
  {
    assert |"kite"| == 4 && |"tele2"| == 5 && |"moabits"| == 7;
  }

  lemma Tele2AlwaysMovesOn(list: seq<Sim>, w: Window, c: Option<string>, n: nat)
    requires Dated(w) && OnTrack(Tele2Stream(list, AnyWindow(), 1), At(c))
    ensures MovesOn(Tele2Stream(list, AnyWindow(), 1), c, Tele2Page(list, w, c, n))
  {
    var f := Tele2Page(list, w, c, n);
    Tele2NextPage(list, w, c, n);
    Tele2PosOfPage(AnyWindow(), c);
    if f.Page? { Tele2PosOfPage(AnyWindow(), f.next); }
  }

  /** Whatever the filters, an answer gets on in the adapter's list. */
  lemma FilteredMovesOn(lists: Lists, f: Filters, status: bool, ending: Ending, p: string, c: Option<string>, n: nat)
    requires IsProvider(p) && DatedFilters(f) && DatedEnding(ending)
    requires OnTrack(StreamOf(lists, AnyWindow(), 1, p), At(c))
    ensures MovesOn(StreamOf(lists, AnyWindow(), 1, p), c, FilteredPage(lists, f, status, ending, p, c, n))
  {
    if p == "tele2" {
      Tele2AlwaysMovesOn(lists.tele2, Window(f.since, f.till, ending), c, n);
    } else {
      RealAnswerMovesOn(lists, AnyWindow(), p, c, n);
      PageShrinks(StreamOf(lists, AnyWindow(), 1, p), c, n, Failed);
    }
  }

  /** An empty list is through after one page, or refused. */
  lemma EmptyListEnds(lists: Lists, f: Filters, status: bool, ending: Ending, p: string, c: Option<string>, n: nat)
    requires IsProvider(p) && ListOf(lists, p) == [] && DatedFilters(f) && DatedEnding(ending)
    ensures After(FilteredPage(lists, f, status, ending, p, c, n)) == Done
  {
    if p == "tele2" {
      PageStart(CursorFields(c).page, Tele2Size(n));
    }
  }

  /** Only one provider has SIMs, all of them different. */
  function OnlyList(p: string, n: nat): (lists: Lists)
    ensures IsProvider(p) ==> |ListOf(lists, p)| == n
  {
    var list := seq(n, i requires 0 <= i => Decimal(i));
    if p == "kite" then Lists(list, [], []) else if p == "tele2" then Lists([], list, []) else Lists([], [], list)
  }

  lemma OnlyListFacts(p: string, n: nat)
    requires IsProvider(p)
    ensures OneListPerSim(OnlyList(p, n)) && NoRepeats(ListOf(OnlyList(p, n), p))
    ensures forall q | IsProvider(q) && q != p :: ListOf(OnlyList(p, n), q) == []
  {
    var lists := OnlyList(p, n);
    DecimalsDiffer(n);
    assert |"kite"| == 4 && |"tele2"| == 5 && |"moabits"| == 7;
    assert lists.kite + lists.tele2 + lists.moabits == ListOf(lists, p);
  }

  lemma LastIsNew(n: nat)
    ensures var list := OnlyList("tele2", n + 1).tele2; |list| == n + 1 && list[n] !in list[..n]
  {
    assert |"kite"| == 4 && |"tele2"| == 5;
    DecimalsDiffer(n + 1);
  }

  lemma NothingListed(q: string, p: string)
    requires IsProvider(q)
    ensures ListOf(OnlyList(q, 0), p) == []
  {
    assert |"kite"| == 4 && |"tele2"| == 5 && |"moabits"| == 7;
  }
}
