/** The global listing over the three real adapters: for which page limits does
    following the cursor deliver every SIM? */
module RealListing {
  import opened Option
  import opened Text
  import opened Cursors
  import opened Paging
  import opened FanOut
  import opened Runs
  import opened Unique
  import opened Listing
  import opened Adapters

  /** The stable native lists of one company. */
  datatype Lists = Lists(kite: seq<Sim>, tele2: seq<Sim>, moabits: seq<Sim>)

  /** All three providers answer, Tele2 with its bootstrap time window. */
  function RealPage(lists: Lists, w: Window, p: string, c: Option<string>, n: nat): Fetch {
    if p == "kite" then KitePage(lists.kite, c, n)
    else if p == "tele2" then Tele2Page(lists.tele2, w, c, n)
    else MoabitsPage(lists.moabits, c, n)
  }

  function RealFetch(lists: Lists, w: Window): Fetcher { (p, c, n: nat) => RealPage(lists, w, p, c, n) }

  function RealEnv(lists: Lists, w: Window): Env { Env(p => Ready, RealFetch(lists, w)) }

  /** Dates are formatted, so they have no bar in them. */
  ghost predicate Dated(w: Window) { Formatted(w) && forall s :: NoBar(w.defaultTill(s)) }

  /** The bootstrap filters always carry a start of the window. */
  ghost predicate Bootstrap(w: Window) { w.since.Some? && Dated(w) }

  /** A request with this page limit, over these lists. */
  ghost predicate RealTurn(t: Turn, lists: Lists, page: nat) {
    PageLimit(t.limit) == page && exists w :: Bootstrap(w) && t.env == RealEnv(lists, w)
  }

  // ---------- Shares of three ready providers ----------

  function Count(a: bool, b: bool, c: bool): nat {
    (if a then 1 else 0) + (if b then 1 else 0) + if c then 1 else 0
  }

  lemma {:induction false} CallsOfThree(env: Env, cursors: CursorMap, a: string, b: string, c: string)
    requires env.setup(a).Ready? && env.setup(b).Ready? && env.setup(c).Ready?
    ensures Calls(env, cursors, [a, b, c]) ==
              (if LiveAt(cursors, a).At? then [Call(a, LiveAt(cursors, a).cursor)] else []) +
              (if LiveAt(cursors, b).At? then [Call(b, LiveAt(cursors, b).cursor)] else []) +
              (if LiveAt(cursors, c).At? then [Call(c, LiveAt(cursors, c).cursor)] else [])
  {
    assert [a, b, c][..2] == [a, b] && [a, b][..1] == [a] && [a][..0] == [];
    assert Calls(env, cursors, [a]) == if LiveAt(cursors, a).At? then [Call(a, LiveAt(cursors, a).cursor)] else [];
    assert Calls(env, cursors, [a, b]) == Calls(env, cursors, [a]) +
             if LiveAt(cursors, b).At? then [Call(b, LiveAt(cursors, b).cursor)] else [];
  }

  /** Where the calls of three ready providers stand. */
  lemma {:induction false} CallPositions(env: Env, cursors: CursorMap, a: string, b: string, c: string)
    requires NoRepeats([a, b, c]) && env.setup(a).Ready? && env.setup(b).Ready? && env.setup(c).Ready?
    ensures var (x, y, z) := (LiveAt(cursors, a).At?, LiveAt(cursors, b).At?, LiveAt(cursors, c).At?);
            var calls := Calls(env, cursors, [a, b, c]);
            |calls| == Count(x, y, z) && (x ==> calls[0].key == a) && (y ==> calls[Count(x, false, false)].key == b)
            && (z ==> calls[Count(x, y, false)].key == c)
  {
    CallsOfThree(env, cursors, a, b, c);
  }

  lemma NoShareWithoutCall(env: Env, cursors: CursorMap, names: seq<string>, page: nat, p: string)
    requires NoRepeats(names) && LiveAt(cursors, p).Done?
    ensures ShareOf(env, cursors, names, page, p) == 0
  {
    CallsFacts(env, cursors, names);
    var calls := Calls(env, cursors, names);
    assert forall j | 0 <= j < |calls| :: calls[j] in calls && calls[j].key != p;
  }

  /** The shares of three ready providers depend on who is still live. */
  lemma SharesOfThree(env: Env, cursors: CursorMap, a: string, b: string, c: string, page: nat)
    requires NoRepeats([a, b, c]) && env.setup(a).Ready? && env.setup(b).Ready? && env.setup(c).Ready?
    ensures var (x, y, z) := (LiveAt(cursors, a).At?, LiveAt(cursors, b).At?, LiveAt(cursors, c).At?);
            var n := Count(x, y, z);
            (x ==> ShareOf(env, cursors, [a, b, c], page, a) == Share(page, n, 0))
            && (y ==> ShareOf(env, cursors, [a, b, c], page, b) == Share(page, n, Count(x, false, false)))
            && (z ==> ShareOf(env, cursors, [a, b, c], page, c) == Share(page, n, Count(x, y, false)))
            && (!y ==> ShareOf(env, cursors, [a, b, c], page, b) == 0)
  {
    var (x, y, z) := (LiveAt(cursors, a).At?, LiveAt(cursors, b).At?, LiveAt(cursors, c).At?);
    CallPositions(env, cursors, a, b, c);
    if x { ShareOfCall(env, cursors, [a, b, c], page, 0); }
    if y { ShareOfCall(env, cursors, [a, b, c], page, Count(x, false, false)); }
    if z { ShareOfCall(env, cursors, [a, b, c], page, Count(x, y, false)); }
    if !y { NoShareWithoutCall(env, cursors, [a, b, c], page, b); }
  }

  lemma SecondShareIsLarge(page: nat, n: nat, i: nat)
    requires page >= 149 && i <= 1 && i < n <= 3
    ensures Share(page, n, i) >= 50
  {
  }

  lemma SecondShareOfOne(n: nat, i: nat)
    requires i <= 1 && i < n <= 3
    ensures Share(1, n, i) <= 1
  {
    assert n > 1 ==> 1 / n == 0 && 1 % n == 1;
  }

  // ---------- Limits that work ----------

  /** The Tele2 page size of a run with this page limit. */
  function SizeFor(page: nat): nat { if page == 1 then 1 else 50 }

  lemma Tele2SizeIsFixed(env: Env, cursors: CursorMap, page: nat)
    requires page == 1 || page >= 149
    requires forall p :: env.setup(p).Ready?
    requires ShareOf(env, cursors, PROVIDERS, page, "tele2") > 0
    ensures Tele2Size(ShareOf(env, cursors, PROVIDERS, page, "tele2")) == SizeFor(page)
  {
    ProvidersDiffer();
    SharesOfThree(env, cursors, "kite", "tele2", "moabits", page);
    var n := Count(LiveAt(cursors, "kite").At?, LiveAt(cursors, "tele2").At?, LiveAt(cursors, "moabits").At?);
    var i := Count(LiveAt(cursors, "kite").At?, false, false);
    if page == 1 { SecondShareOfOne(n, i); } else { SecondShareIsLarge(page, n, i); }
  }

  function StreamOf(lists: Lists, w: Window, size: nat, p: string): Stream {
    if p == "kite" then OffsetStream(lists.kite)
    else if p == "tele2" then Tele2Stream(lists.tele2, w, size)
    else OffsetStream(lists.moabits)
  }

  function ListOf(lists: Lists, p: string): seq<Sim> {
    if p == "kite" then lists.kite else if p == "tele2" then lists.tele2 else lists.moabits
  }

  function Sizes(p: string, size: nat): nat -> bool {
    n => p == "tele2" ==> Tele2Size(n) == size
  }

  lemma RealAnswersMeet(lists: Lists, w: Window, size: nat, p: string, c: Option<string>, n: nat)
    requires IsProvider(p) && Bootstrap(w) && Sizes(p, size)(n)
    requires OnTrack(StreamOf(lists, w, size, p), At(c))
    ensures Meets(StreamOf(lists, w, size, p), c, n, RealFetch(lists, w)(p, c, n))
  {
    if p == "kite" {
      KiteMeets(lists.kite, c, n);
    } else if p == "tele2" {
      Tele2Meets(lists.tele2, w, c, n);
    } else {
      MoabitsMeets(lists.moabits, c, n);
    }
  }

  /** Tele2's streams for two bootstrap windows are the same stream: only the
      page number counts. */
  lemma WindowsAgree(lists: Lists, w: Window, w': Window, size: nat, p: string)
    requires Bootstrap(w) && Bootstrap(w')
    ensures StreamOf(lists, w, size, p).items == StreamOf(lists, w', size, p).items == ListOf(lists, p)
    ensures forall c :: StreamOf(lists, w, size, p).pos(c) == StreamOf(lists, w', size, p).pos(c)
  {
  }

  lemma RealTurnServes(t: Turn, lists: Lists, w: Window, page: nat, p: string)
    requires RealTurn(t, lists, page) && (page == 1 || page >= 149) && IsProvider(p) && Bootstrap(w)
    ensures Serves(t, p, StreamOf(lists, w, SizeFor(page), p), Sizes(p, SizeFor(page)))
  {
    var size, s := SizeFor(page), StreamOf(lists, w, SizeFor(page), p);
    var w' :| Bootstrap(w') && t.env == RealEnv(lists, w');
    WindowsAgree(lists, w, w', size, p);
    forall c, n: nat | n > 0 && Sizes(p, size)(n) && OnTrack(s, At(c)) ensures Meets(s, c, n, t.env.fetch(p, c, n)) {
      RealAnswersMeet(lists, w', size, p, c, n);
    }
    forall cursors, n | n == ShareOf(t.env, cursors, PROVIDERS, PageLimit(t.limit), p) && n > 0
      ensures Sizes(p, size)(n)
    {
      if p == "tele2" { Tele2SizeIsFixed(t.env, cursors, page); }
    }
  }

  lemma AtLeastPage(page: PageNumber, size: nat)
    requires size >= 1
    ensures page * size >= page && (page - 1) * 1 == page - 1
  {
  }

  /** A further page means that its number is still below the length of the list. */
  lemma Tele2NextPage(list: seq<Sim>, w: Window, c: Option<string>, n: nat)
    requires Dated(w)
    ensures var f, page := Tele2Page(list, w, c, n), CursorFields(c).page;
            f.Page? && f.next.Some? ==> CursorFields(f.next).page == page + 1 && page < |list|
  {
    AtLeastPage(CursorFields(c).page, Tele2Size(n));
    Tele2NextFields(w, c, CursorFields(c).page + 1);
  }

  lemma Tele2PosOfPage(w: Window, c: Option<string>)
    requires Bootstrap(w)
    ensures Tele2Pos(w, 1, c) == CursorFields(c).page - 1
  {
    AtLeastPage(CursorFields(c).page, 1);
  }

  /** Counting Tele2's pages as if each held one SIM, a page number never gets
      past the end of the list: whatever the page sizes, Tele2 gets on. */
  lemma Tele2MovesOn(list: seq<Sim>, w: Window, c: Option<string>, n: nat)
    requires Bootstrap(w) && OnTrack(Tele2Stream(list, w, 1), At(c))
    ensures MovesOn(Tele2Stream(list, w, 1), c, Tele2Page(list, w, c, n))
  {
    var f := Tele2Page(list, w, c, n);
    Tele2NextPage(list, w, c, n);
    Tele2PosOfPage(w, c);
    if f.Page? { Tele2PosOfPage(w, f.next); }
  }

  lemma RealAnswerMovesOn(lists: Lists, w: Window, p: string, c: Option<string>, n: nat)
    requires IsProvider(p) && Bootstrap(w) && OnTrack(StreamOf(lists, w, 1, p), At(c))
    ensures MovesOn(StreamOf(lists, w, 1, p), c, RealFetch(lists, w)(p, c, n))
  {
    if p == "tele2" {
      Tele2MovesOn(lists.tele2, w, c, n);
    } else {
      RealAnswersMeet(lists, w, 1, p, c, n);
      PageShrinks(StreamOf(lists, w, 1, p), c, n, RealFetch(lists, w)(p, c, n));
    }
  }

  function Streams(lists: Lists, w: Window): string -> Stream { p => StreamOf(lists, w, 1, p) }

  lemma RealTurnBehaves(t: Turn, lists: Lists, w: Window, page: nat)
    requires RealTurn(t, lists, page) && Bootstrap(w)
    ensures Behaves(t, Streams(lists, w))
  {
    var w' :| Bootstrap(w') && t.env == RealEnv(lists, w');
    forall p, c, n: nat | IsProvider(p) && OnTrack(StreamOf(lists, w, 1, p), At(c))
      ensures MovesOn(StreamOf(lists, w, 1, p), c, t.env.fetch(p, c, n))
    {
      WindowsAgree(lists, w, w', 1, p);
      RealAnswerMovesOn(lists, w', p, c, n);
    }
  }

  lemma RealAnswers(lists: Lists, w: Window, p: string, c: Option<string>, n: nat)
    requires Bootstrap(w)
    ensures RealFetch(lists, w)(p, c, n).Page?
  {
    assert Since(w, c) == w.since.value && w.since.value != "";
    assert Tele2Page(lists.tele2, w, c, n).Page?;
  }

  /** The real adapters never fail under a bootstrap window, so no page raises. */
  lemma RealPageIsListed(t: Turn, lists: Lists, page: nat, c: Option<string>)
    requires RealTurn(t, lists, page)
    ensures ListPage(c, t).Listed?
  {
    var w :| Bootstrap(w) && t.env == RealEnv(lists, w);
    var cursors := DecodeGlobal(c);
    var calls, limits := Calls(t.env, cursors, PROVIDERS), Limits(t.env, cursors, PROVIDERS, page);
    forall i | 0 <= i < |calls| ensures t.env.fetch(calls[i].key, calls[i].cursor, limits[i]).Page? {
      RealAnswers(lists, w, calls[i].key, calls[i].cursor, limits[i]);
    }
    NobodyFailed(t.env.fetch, calls, limits);
    assert PageFailed(t.env, cursors, PROVIDERS, page) == {};
  }

  lemma StreamsStartAtZero(lists: Lists, w: Window, size: nat, p: string)
    requires Bootstrap(w)
    ensures StreamOf(lists, w, size, p).pos(None) == 0
  {
    assert Decimal(0) == "0";
    StartOfDecimal(0);
    assert Start(None) == Start(Some("0"));
  }

  lemma StreamsFacts(lists: Lists, w: Window)
    requires Bootstrap(w)
    ensures forall p :: Streams(lists, w)(p).pos(None) == 0
    ensures Streams(lists, w)("kite").items == lists.kite
    ensures Streams(lists, w)("tele2").items == lists.tele2
    ensures Streams(lists, w)("moabits").items == lists.moabits
  {
    forall p ensures Streams(lists, w)(p).pos(None) == 0 { StreamsStartAtZero(lists, w, 1, p); }
    assert |"kite"| == 4 && |"tele2"| == 5 && |"moabits"| == 7;
  }

  /** Over the real adapters every run ends, whatever the page limits, and even
      if they change from page to page. */
  lemma {:induction false} RealRunEnds(turns: seq<Turn>, lists: Lists, w: Window)
    requires Bootstrap(w) && forall t | t in turns :: RealTurn(t, lists, PageLimit(t.limit))
    requires |turns| >= |lists.kite| + |lists.tele2| + |lists.moabits| + 3
    ensures Follow(ListPage, None, turns).Ended?
  {
    forall t, c | t in turns ensures ListPage(c, t).Listed? { RealPageIsListed(t, lists, PageLimit(t.limit), c); }
    RunIsNotAborted(ListPage, None, turns);
    forall t | t in turns ensures Behaves(t, Streams(lists, w)) { RealTurnBehaves(t, lists, w, PageLimit(t.limit)); }
    StreamsFacts(lists, w);
    RunTerminates(turns, Streams(lists, w));
  }

  /** And no page holds more than the clamped limit. */
  lemma RealPageFits(t: Turn, lists: Lists, cursor: Option<string>)
    requires RealTurn(t, lists, PageLimit(t.limit))
    ensures ListPage(cursor, t).Listed? && |ListPage(cursor, t).items| <= Clamp(t.limit, 1, 500)
  {
    var w :| Bootstrap(w) && t.env == RealEnv(lists, w);
    forall p, c, n: nat | t.env.fetch(p, c, n).Page? ensures |t.env.fetch(p, c, n).items| <= Max(n, 1) {
      assert t.env.fetch(p, c, n) == RealPage(lists, w, p, c, n);
    }
    PageFitsLimit(cursor, t);
    RealPageIsListed(t, lists, PageLimit(t.limit), cursor);
  }

  lemma {:induction false} RealRunCovers(turns: seq<Turn>, lists: Lists, w: Window, page: nat, p: string)
    requires (page == 1 || page >= 149) && Bootstrap(w) && IsProvider(p)
    requires forall t | t in turns :: RealTurn(t, lists, page)
    requires Follow(ListPage, None, turns).Ended?
    ensures Of(p, Follow(ListPage, None, turns).items) == ListOf(lists, p)
  {
    var s := StreamOf(lists, w, SizeFor(page), p);
    forall t | t in turns ensures Serves(t, p, s, Sizes(p, SizeFor(page))) { RealTurnServes(t, lists, w, page, p); }
    StreamsStartAtZero(lists, w, SizeFor(page), p);
    RunCoversProvider(turns, p, s, Sizes(p, SizeFor(page)));
    WindowsAgree(lists, w, w, SizeFor(page), p);
  }

  /** A run over these lists, given enough turns, ends with every list whole. */
  ghost predicate Delivers(turns: seq<Turn>, lists: Lists) {
    var j := Follow(ListPage, None, turns);
    j.Ended? && forall p | IsProvider(p) :: Of(p, j.items) == ListOf(lists, p)
  }

  /** Enough requests with this page limit. */
  ghost predicate RealRun(turns: seq<Turn>, lists: Lists, page: nat) {
    && (forall t | t in turns :: RealTurn(t, lists, page))
    && |turns| >= |lists.kite| + |lists.tele2| + |lists.moabits| + 3
  }

  lemma GoodLimitDelivers(turns: seq<Turn>, lists: Lists, page: nat)
    requires RealRun(turns, lists, page) && (page == 1 || page >= 149)
    ensures Delivers(turns, lists)
  {
    assert turns[0] in turns;
    var w :| Bootstrap(w) && turns[0].env == RealEnv(lists, w);
    RealRunEnds(turns, lists, w);
    forall p | IsProvider(p) ensures Of(p, Follow(ListPage, None, turns).items) == ListOf(lists, p) {
      RealRunCovers(turns, lists, w, page, p);
    }
  }

  // ---------- Limits that lose SIMs ----------

  /** No SIM is listed twice, by one provider or by two. */
  predicate OneListPerSim(lists: Lists) { NoRepeats(lists.kite + lists.tele2 + lists.moabits) }

  lemma DecimalsDiffer(n: nat)
    ensures NoRepeats(seq(n, i requires 0 <= i => Decimal(i)))
  {
    forall i, j | 0 <= i < j < n ensures Decimal(i) != Decimal(j) {
      ParseIntOfDecimal(i);
      ParseIntOfDecimal(j);
    }
  }

  /** Lists on which the page limit fails: only Tele2 has SIMs, so its share
      grows as soon as the other two turn out to be empty. */
  function Witness(page: nat): Lists {
    Lists([], seq(if page == 2 then 4 else (page + 1) / 3 + 1, i requires 0 <= i => Decimal(i)), [])
  }

  function AnyWindow(): (w: Window)
    ensures Bootstrap(w)
  {
    Window(Some("2025-01-01T00:00:00Z"), None, s => "2026-01-01T00:00:00Z")
  }

  function WitnessTurn(page: nat): Turn { Turn(page, RealEnv(Witness(page), AnyWindow())) }

  /** A Tele2 answer with this page number and page size. */
  ghost predicate Tele2Answers(f: Fetch, list: seq<Sim>, number: nat, size: nat) {
    && f.Page? && number >= 1 && (number - 1) * size >= 0
    && f.items == Slice(list, (number - 1) * size, size)
    && (f.next.Some? <==> number * size < |list|)
    && (f.next.Some? ==> CursorFields(f.next).page == number + 1)
  }

  /** Three ready providers, of which Tele2 has a list and the others nothing. */
  ghost predicate IsWitness(t: Turn, page: nat, list: seq<Sim>) {
    && PageLimit(t.limit) == page && (forall p :: t.env.setup(p).Ready?) && (forall c :: ListPage(c, t).Listed?)
    && (forall c, n: nat | n > 0 :: Tele2Answers(t.env.fetch("tele2", c, n), list, CursorFields(c).page, Tele2Size(n)))
    && (forall p, c, n: nat | (p == "kite" || p == "moabits") && n > 0 :: After(t.env.fetch(p, c, n)) == Done)
  }

  lemma Tele2PageAnswers(list: seq<Sim>, w: Window, c: Option<string>, n: nat)
    requires Bootstrap(w)
    ensures Tele2Answers(Tele2Page(list, w, c, n), list, CursorFields(c).page, Tele2Size(n))
  {
    var number := CursorFields(c).page;
    assert |"kite"| == 4 && |"tele2"| == 5;
    RealAnswers(Lists([], list, []), w, "tele2", c, n);
    PageStart(number, Tele2Size(n));
    Tele2NextFields(w, c, number + 1);
  }

  lemma WitnessTurnIsWitness(page: nat)
    requires 2 <= page <= 148
    ensures IsWitness(WitnessTurn(page), page, Witness(page).tele2)
  {
    var t := WitnessTurn(page);
    assert |"kite"| == 4 && |"tele2"| == 5 && |"moabits"| == 7;
    assert RealTurn(t, Witness(page), page);
    forall c ensures ListPage(c, t).Listed? { RealPageIsListed(t, Witness(page), page, c); }
    forall c, n: nat | n > 0
      ensures Tele2Answers(t.env.fetch("tele2", c, n), Witness(page).tele2, CursorFields(c).page, Tele2Size(n))
    {
      Tele2PageAnswers(Witness(page).tele2, AnyWindow(), c, n);
    }
  }

  /** A page of the witness run, as each of the three providers sees it. */
  lemma {:induction false} WitnessPage(t: Turn, page: nat, list: seq<Sim>, cursor: Option<string>, p: string)
    requires IsWitness(t, page, list) && IsProvider(p)
    ensures var cursors, r := DecodeGlobal(cursor), ListPage(cursor, t);
            var live, share := LiveAt(cursors, p), ShareOf(t.env, cursors, PROVIDERS, page, p);
            Of(p, r.items) == (if live.At? then Got(t.env.fetch, Call(p, live.cursor), share) else [])
            && LiveNext(LiveIn(p), r.next) ==
                 if live.At? then Outcome(t.env.fetch, Call(p, live.cursor), share) else Done
  {
    var cursors := DecodeGlobal(cursor);
    ProvidersDiffer();
    NextCursorDecodes(cursor, t, p);
    if LiveAt(cursors, p).At? {
      PageOfProvider(t.env, cursors, PROVIDERS, page, p);
    } else {
      PageWithoutProvider(t.env, cursors, PROVIDERS, page, p);
    }
  }

  /** The state of the witness run between two pages: who is live, and the
      number of Tele2's next page. */
  predicate InState(cursor: Option<string>, kite: bool, moabits: bool, number: nat) {
    && LiveIn("kite")(cursor).At? == kite
    && LiveIn("moabits")(cursor).At? == moabits
    && LiveIn("tele2")(cursor).At?
    && CursorFields(LiveIn("tele2")(cursor).cursor).page == number
  }

  /** A way to tell the run's states from a cursor. */
  type StateTest = (Option<string>, bool, bool, nat) -> bool

  /** What a page of the witness run does in a state. */
  ghost predicate Steps(inState: StateTest, r: Result, page: nat, list: seq<Sim>, kite: bool, moabits: bool,
                        number: nat) {
    var n := Count(kite, true, moabits);
    var size := Tele2Size(Share(page, n, Count(kite, false, false)));
    && r.Listed?
    && number >= 1 && (number - 1) * size >= 0
    && Of("tele2", r.items) == Slice(list, (number - 1) * size, size)
    && (number * size < |list| ==>
          r.next.Some? && inState(r.next, kite && Share(page, n, 0) == 0,
                                  moabits && Share(page, n, Count(kite, true, false)) == 0, number + 1))
    && (number * size >= |list| ==> LiveNext(LiveIn("tele2"), r.next).Done?)
  }

  /** Tele2's part of a page is what Tele2 answers. */
  lemma WitnessTele2Page(t: Turn, page: nat, list: seq<Sim>, cursor: Option<string>, share: nat)
    requires IsWitness(t, page, list) && LiveIn("tele2")(cursor).At?
    requires ShareOf(t.env, DecodeGlobal(cursor), PROVIDERS, page, "tele2") == share > 0
    ensures var r, f := ListPage(cursor, t), t.env.fetch("tele2", LiveIn("tele2")(cursor).cursor, share);
            Of("tele2", r.items) == f.items && LiveNext(LiveIn("tele2"), r.next) == After(f)
  {
    var c := LiveIn("tele2")(cursor).cursor;
    assert IsProvider("tele2");
    assert Tele2Answers(t.env.fetch("tele2", c, share), list, CursorFields(c).page, Tele2Size(share));
    WitnessPage(t, page, list, cursor, "tele2");
    MadeCall(t.env.fetch, Call("tele2", c), share);
  }

  /** An empty provider is through as soon as it gets a share. */
  lemma WitnessIdle(t: Turn, page: nat, list: seq<Sim>, cursor: Option<string>, p: string)
    requires IsWitness(t, page, list) && (p == "kite" || p == "moabits")
    ensures LiveNext(LiveIn(p), ListPage(cursor, t).next).At?
            <==> LiveIn(p)(cursor).At? && ShareOf(t.env, DecodeGlobal(cursor), PROVIDERS, page, p) == 0
  {
    assert IsProvider("kite") && IsProvider("moabits");
    WitnessPage(t, page, list, cursor, p);
  }

  /** What Tele2 answers in a state. */
  function Tele2Reply(t: Turn, cursor: Option<string>, share: nat): Fetch {
    t.env.fetch("tele2", if LiveIn("tele2")(cursor).At? then LiveIn("tele2")(cursor).cursor else None, share)
  }

  function Tele2Share(page: nat, kite: bool, moabits: bool): nat {
    Share(page, Count(kite, true, moabits), Count(kite, false, false))
  }

  lemma WitnessShares(t: Turn, page: nat, list: seq<Sim>, cursor: Option<string>, kite: bool, moabits: bool,
                      number: nat)
    requires IsWitness(t, page, list) && InState(cursor, kite, moabits, number)
    ensures var n := Count(kite, true, moabits);
            ShareOf(t.env, DecodeGlobal(cursor), PROVIDERS, page, "tele2") == Tele2Share(page, kite, moabits)
            && (kite ==> ShareOf(t.env, DecodeGlobal(cursor), PROVIDERS, page, "kite") == Share(page, n, 0))
            && (moabits ==>
                  ShareOf(t.env, DecodeGlobal(cursor), PROVIDERS, page, "moabits") ==
                    Share(page, n, Count(kite, true, false)))
  {
    ProviderShares(t.env, DecodeGlobal(cursor), page);
  }

  lemma ProviderShares(env: Env, cursors: CursorMap, page: nat)
    requires forall p :: env.setup(p).Ready?
    ensures var (x, y) := (LiveAt(cursors, "kite").At?, LiveAt(cursors, "tele2").At?);
            var z := LiveAt(cursors, "moabits").At?;
            var n := Count(x, y, z);
            (x ==> ShareOf(env, cursors, PROVIDERS, page, "kite") == Share(page, n, 0))
            && (y ==> ShareOf(env, cursors, PROVIDERS, page, "tele2") == Share(page, n, Count(x, false, false)))
            && (z ==> ShareOf(env, cursors, PROVIDERS, page, "moabits") == Share(page, n, Count(x, y, false)))
  {
    ProvidersDiffer();
    SharesOfThree(env, cursors, "kite", "tele2", "moabits", page);
  }

  /** Tele2's part of a step. */
  lemma WitnessReply(t: Turn, page: nat, list: seq<Sim>, cursor: Option<string>, kite: bool, moabits: bool, number: nat)
    requires IsWitness(t, page, list) && InState(cursor, kite, moabits, number) && Tele2Share(page, kite, moabits) > 0
    ensures var f, r := Tele2Reply(t, cursor, Tele2Share(page, kite, moabits)), ListPage(cursor, t);
            Tele2Answers(f, list, number, Tele2Size(Tele2Share(page, kite, moabits)))
            && r.Listed? && Of("tele2", r.items) == f.items && LiveNext(LiveIn("tele2"), r.next) == After(f)
  {
    var share := Tele2Share(page, kite, moabits);
    WitnessShares(t, page, list, cursor, kite, moabits, number);
    WitnessTele2Page(t, page, list, cursor, share);
  }

  /** The others' part. */
  lemma WitnessOthers(t: Turn, page: nat, list: seq<Sim>, cursor: Option<string>, kite: bool, moabits: bool,
                      number: nat)
    requires IsWitness(t, page, list) && InState(cursor, kite, moabits, number)
    ensures var next, n := ListPage(cursor, t).next, Count(kite, true, moabits);
            (LiveNext(LiveIn("kite"), next).At? <==> kite && Share(page, n, 0) == 0)
            && (LiveNext(LiveIn("moabits"), next).At? <==> moabits && Share(page, n, Count(kite, true, false)) == 0)
  {
    WitnessShares(t, page, list, cursor, kite, moabits, number);
    WitnessIdle(t, page, list, cursor, "kite");
    WitnessIdle(t, page, list, cursor, "moabits");
  }

  lemma StepsFromParts(r: Result, page: nat, list: seq<Sim>, kite: bool, moabits: bool, number: nat, f: Fetch)
    requires r.Listed? && Tele2Answers(f, list, number, Tele2Size(Tele2Share(page, kite, moabits)))
    requires Of("tele2", r.items) == f.items && LiveNext(LiveIn("tele2"), r.next) == After(f)
    requires LiveNext(LiveIn("kite"), r.next).At? <==> kite && Share(page, Count(kite, true, moabits), 0) == 0
    requires LiveNext(LiveIn("moabits"), r.next).At?
             <==> moabits && Share(page, Count(kite, true, moabits), Count(kite, true, false)) == 0
    ensures Steps(InState, r, page, list, kite, moabits, number)
  {
  }

  lemma WitnessSteps(t: Turn, page: nat, list: seq<Sim>, cursor: Option<string>, kite: bool, moabits: bool, number: nat)
    requires IsWitness(t, page, list) && InState(cursor, kite, moabits, number)
    requires Share(page, Count(kite, true, moabits), Count(kite, false, false)) > 0
    ensures Steps(InState, ListPage(cursor, t), page, list, kite, moabits, number)
  {
    WitnessReply(t, page, list, cursor, kite, moabits, number);
    WitnessOthers(t, page, list, cursor, kite, moabits, number);
    StepsFromParts(ListPage(cursor, t), page, list, kite, moabits, number,
                   Tele2Reply(t, cursor, Tele2Share(page, kite, moabits)));
  }

  lemma WitnessStarts()
    ensures InState(None, true, true, 1)
  {
  }

  lemma FirstSlice(list: seq<Sim>, n: nat)
    requires n < |list|
    ensures Slice(list, (1 - 1) * n, n) == list[..n]
  {
  }

  lemma StepFirst(inState: StateTest, r: Result, page: nat)
    requires 2 <= page <= 148 && Steps(inState, r, page, Witness(page).tele2, true, true, 1)
    ensures r.next.Some? && inState(r.next, false, page == 2, 2)
    ensures Of("tele2", r.items) == Witness(page).tele2[..(page + 1) / 3]
  {
    assert Share(page, 3, 1) == (page + 1) / 3 && Share(page, 3, 0) > 0 && (Share(page, 3, 2) == 0 <==> page == 2);
    FirstSlice(Witness(page).tele2, (page + 1) / 3);
  }

  lemma StepSecondOfTwo(inState: StateTest, r: Result)
    requires Steps(inState, r, 2, Witness(2).tele2, false, true, 2)
    ensures r.next.Some? && inState(r.next, false, false, 3)
    ensures Of("tele2", r.items) == Witness(2).tele2[1..2]
  {
    assert Share(2, 2, 0) == 1 && Share(2, 2, 1) == 1;
  }

  /** Once Tele2 is alone it gets the whole limit, and its next page starts
      beyond the end of the list. */
  lemma StepLast(inState: StateTest, r: Result, page: nat)
    requires 2 <= page <= 148 && Steps(inState, r, page, Witness(page).tele2, false, false, if page == 2 then 3 else 2)
    ensures Of("tele2", r.items) == [] && LiveNext(LiveIn("tele2"), r.next) == Done
  {
    assert Share(page, 1, 0) == page;
  }

  ghost predicate StepsLikeWitness(step: (Option<string>, Turn) -> Result, inState: StateTest, page: nat) {
    && (forall c, k, m, number |
          inState(c, k, m, number) && Share(page, Count(k, true, m), Count(k, false, false)) > 0 ::
          Steps(inState, step(c, WitnessTurn(page)), page, Witness(page).tele2, k, m, number))
    && (forall c: Option<string>, rest: seq<Turn> | LiveIn("tele2")(c) == Done ::
          Of("tele2", Follow(step, c, rest).items) == [])
  }

  lemma {:induction false} AloneDeliversNothing(step: (Option<string>, Turn) -> Result, inState: StateTest, page: nat,
                                                c: Option<string>, turns: seq<Turn>)
    requires 2 <= page <= 148 && StepsLikeWitness(step, inState, page) && turns != [] && turns[0] == WitnessTurn(page)
    requires inState(c, false, false, if page == 2 then 3 else 2)
    ensures Of("tele2", Follow(step, c, turns).items) == []
  {
    assert Share(page, 1, 0) == page;
    StepLast(inState, step(c, turns[0]), page);
    JourneyStep(step, c, turns, "tele2");
  }

  lemma {:induction false} SecondPageOfTwo(step: (Option<string>, Turn) -> Result, inState: StateTest,
                                           c: Option<string>, turns: seq<Turn>)
    requires StepsLikeWitness(step, inState, 2) && |turns| >= 2 && turns[0] == turns[1] == WitnessTurn(2)
    requires inState(c, false, true, 2)
    ensures Of("tele2", Follow(step, c, turns).items) == Witness(2).tele2[1..2]
  {
    assert Share(2, 2, 0) == 1;
    var r := step(c, turns[0]);
    StepSecondOfTwo(inState, r);
    JourneyStep(step, c, turns, "tele2");
    AloneDeliversNothing(step, inState, 2, r.next, turns[1..]);
  }

  /** Any endpoint that steps like the witness run loses the last SIM, or with a
      limit of 2 the last two: as the others drop out Tele2's share grows, and
      its next page number then points beyond the end of the list. */
  lemma {:induction false} SteppingLosesSims(step: (Option<string>, Turn) -> Result, inState: StateTest, page: nat,
                                             turns: seq<Turn>)
    requires 2 <= page <= 148 && StepsLikeWitness(step, inState, page)
    requires |turns| >= 3 && turns[0] == turns[1] == turns[2] == WitnessTurn(page)
    requires inState(None, true, true, 1)
    ensures Of("tele2", Follow(step, None, turns).items)
         == Witness(page).tele2[..if page == 2 then 2 else (page + 1) / 3]
  {
    assert Share(page, 3, 1) > 0;
    var r := step(None, turns[0]);
    StepFirst(inState, r, page);
    JourneyStep(step, None, turns, "tele2");
    if page == 2 {
      SecondPageOfTwo(step, inState, r.next, turns[1..]);
    } else {
      AloneDeliversNothing(step, inState, page, r.next, turns[1..]);
    }
  }

  lemma {:induction false} WitnessLosesSims(page: nat, turns: seq<Turn>)
    requires 2 <= page <= 148 && |turns| >= 3 && turns[0] == turns[1] == turns[2] == WitnessTurn(page)
    ensures Of("tele2", Follow(ListPage, None, turns).items)
         == Witness(page).tele2[..if page == 2 then 2 else (page + 1) / 3]
  {
    WitnessStarts();
    WitnessTurnIsWitness(page);
    forall c, k, m, number | InState(c, k, m, number) && Share(page, Count(k, true, m), Count(k, false, false)) > 0
      ensures Steps(InState, ListPage(c, WitnessTurn(page)), page, Witness(page).tele2, k, m, number)
    {
      WitnessSteps(WitnessTurn(page), page, Witness(page).tele2, c, k, m, number);
    }
    forall c: Option<string>, rest: seq<Turn> | LiveIn("tele2")(c) == Done
      ensures Of("tele2", Follow(ListPage, c, rest).items) == []
    {
      DoneStaysDone(c, rest, "tele2");
    }
    SteppingLosesSims(ListPage, InState, page, turns);
  }

  /** Some SIM of Tele2 is not among the items. */
  ghost predicate Misses(items: seq<Item>, lists: Lists) {
    exists sim :: sim in lists.tele2 && Item("tele2", sim) !in items
  }

  /** A proper prefix of a list without repeats misses its last SIM. */
  lemma {:induction false} PrefixMisses(items: seq<Item>, lists: Lists, n: nat)
    requires NoRepeats(lists.tele2) && n < |lists.tele2| && Of("tele2", items) == lists.tele2[..n]
    ensures Misses(items, lists)
  {
    var sim := lists.tele2[|lists.tele2| - 1];
    OfMember("tele2", items, sim);
    assert sim !in lists.tele2[..n];
    assert sim in lists.tele2;
  }

  lemma {:induction false} DeliveredIsNotMissed(turns: seq<Turn>, lists: Lists)
    requires Delivers(turns, lists)
    ensures !Misses(Follow(ListPage, None, turns).items, lists)
  {
    var items := Follow(ListPage, None, turns).items;
    assert IsProvider("tele2");
    assert |"kite"| == 4 && |"tele2"| == 5;
    assert Of("tele2", items) == lists.tele2;
    forall sim | sim in lists.tele2 ensures Item("tele2", sim) in items { OfMember("tele2", items, sim); }
  }

  function WitnessTurns(page: nat): seq<Turn> { seq(|Witness(page).tele2| + 3, i => WitnessTurn(page)) }

  /** For each limit in between there is a run that ends without a SIM ever
      having been delivered, over lists in which no SIM occurs twice. */
  lemma BadLimitLosesSim(page: nat)
    requires 2 <= page <= 148
    ensures RealRun(WitnessTurns(page), Witness(page), page) && OneListPerSim(Witness(page))
    ensures var j := Follow(ListPage, None, WitnessTurns(page)); j.Ended? && Misses(j.items, Witness(page))
  {
    var lists, turns := Witness(page), WitnessTurns(page);
    assert RealTurn(WitnessTurn(page), lists, page);
    DecimalsDiffer(|lists.tele2|);
    assert [] + lists.tele2 + [] == lists.tele2;
    RealRunEnds(turns, lists, AnyWindow());
    WitnessLosesSims(page, turns);
    PrefixMisses(Follow(ListPage, None, turns).items, lists, if page == 2 then 2 else (page + 1) / 3);
  }

  /** Following the cursor over the real adapters delivers every SIM, whatever
      the lists, exactly when the page limit is 1 or at least 149: in between,
      Tele2's share of the page, and with it the meaning of its page number,
      can change from one page to the next. */
  lemma {:induction false} ListingIsCompleteIff(page: nat)
    requires 1 <= page <= 500
    ensures (forall turns, lists | RealRun(turns, lists, page) && OneListPerSim(lists) :: Delivers(turns, lists))
            <==> page == 1 || page >= 149
  {
    if page == 1 || page >= 149 {
      forall turns, lists | RealRun(turns, lists, page) && OneListPerSim(lists) ensures Delivers(turns, lists) {
        GoodLimitDelivers(turns, lists, page);
      }
    } else {
      BadLimitLosesSim(page);
      var turns, lists := WitnessTurns(page), Witness(page);
      if Delivers(turns, lists) { DeliveredIsNotMissed(turns, lists); }
      assert !Delivers(turns, lists);
    }
  }
}
