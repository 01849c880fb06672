/** The search over the three real adapters. */
module RealSearch {
  import opened Option
  import opened Text
  import opened Cursors
  import opened Paging
  import opened FanOut
  import opened Runs
  import opened Unique
  import opened Adapters
  import opened RealListing
  import opened FilteredPages
  import opened Search

  /** The three adapters under the filters of the request, over stable lists of
      what matches, one for each status. */
  function RealStatusFetch(selections: seq<Selection>, lists: string -> Lists, ending: Ending): StatusFetcher {
    (p, key, c, n: nat) =>
      var i := IndexOf(selections, p);
      if i == |selections| then Failed
      else FilteredPage(lists(key), selections[i].filters, key != "", ending, p, c, n)
  }

  lemma {:induction false} DecimalStart(n: nat)
    ensures Decimal(n) != "" && IsDigit(Decimal(n)[0])
  {
    if n >= 10 { DecimalStart(n / 10); }
  }

  lemma {:induction false} DecimalIsNative(n: nat)
    ensures DecodeStatus(Some(Decimal(n))) == None
  {
    DecimalStart(n);
    NativeCursorIsNoStatusCursor(Decimal(n));
  }

  /** No cursor of the three adapters is ever taken for a status cursor. */
  lemma RealCursorsAreNative(lists: Lists, w: Window, p: string, c: Option<string>, n: nat)
    ensures Native(RealPage(lists, w, p, c, n))
  {
    var f := RealPage(lists, w, p, c, n);
    if f.Page? && f.next.Some? {
      if p == "kite" {
        DecimalIsNative(Start(c) + |f.items|);
      } else if p == "tele2" {
        NativeCursorIsNoStatusCursor(f.next.value);
      } else {
        DecimalIsNative(Start(c) + |f.items|);
      }
    }
  }

  lemma FilteredIsNative(lists: Lists, f: Filters, status: bool, ending: Ending, p: string, c: Option<string>, n: nat)
    ensures Native(FilteredPage(lists, f, status, ending, p, c, n))
  {
    RealCursorsAreNative(lists, Window(f.since, f.till, ending), p, c, n);
  }

  // ---------- Shares of a status ----------

  /** The provider's limit while all providers are live. */
  function FirstLimit(ask: Ask, i: nat): nat
    requires i < |ask.selections|
  {
    LimitFor(ask, None, i)
  }

  /** Its limit once the providers before it are through. */
  function LastLimit(ask: Ask, i: nat): nat
    requires i < |ask.selections|
  {
    var shares := CallLimits(ask.limit, Unlimited(ask.selections));
    if ask.selections[i].limit.Some? then ask.selections[i].limit.value
    else if shares == [] then ask.limit else shares[0]
  }

  /** Tele2's page size is the same for the smallest share that a status of the
      selection can get, with all of them live, and for the largest, alone. */
  predicate Steady(ask: Ask, i: nat)
    requires i < |ask.selections|
  {
    Tele2Size(FirstLimit(ask, i) / |StatusKeys(ask.selections[i])|) == Tele2Size(LastLimit(ask, i))
  }

  lemma {:induction false} TakenFacts(selections: seq<Selection>, cursors: Listing.CursorMap)
    ensures Taken(selections, cursors) <= Taken(selections, None) == Unlimited(selections)
  {
    if selections != [] { TakenFacts(selections[..|selections| - 1], cursors); }
  }

  lemma {:induction false} UnlimitedPrefix(selections: seq<Selection>, i: nat)
    requires i < |selections| && selections[i].limit.None?
    ensures Unlimited(selections[..i]) < Unlimited(selections)
  {
    var n := |selections| - 1;
    if i < n {
      UnlimitedPrefix(selections[..n], i);
      assert selections[..n][..i] == selections[..i];
    }
  }

  lemma {:induction false} LimitBounds(ask: Ask, cursors: Listing.CursorMap, i: nat)
    requires i < |ask.selections|
    ensures FirstLimit(ask, i) <= LimitFor(ask, cursors, i) <= LastLimit(ask, i)
    ensures Taken(ask.selections[..i], cursors) == 0 ==> LimitFor(ask, cursors, i) == LastLimit(ask, i)
  {
    if ask.selections[i].limit.None? {
      TakenFacts(ask.selections[..i], cursors);
      UnlimitedPrefix(ask.selections, i);
      SharesAreFair(ask.limit, Unlimited(ask.selections));
    }
  }

  lemma Products(a: nat, b: nat, m: nat)
    requires a <= b
    ensures a * m <= b * m
  {
  }

  lemma Exceeds(q: nat, m: nat, a: nat)
    requires m > 0
    ensures q > a / m ==> q * m > a
  {
    if q > a / m {
      Products(a / m + 1, q, m);
      assert (a / m + 1) * m == a / m * m + m;
    }
  }

  lemma SmallerDivisor(a: nat, m: nat, k: nat)
    requires 0 < m <= k
    ensures a / k <= a / m
  {
    Products(m, k, a / k);
    Exceeds(a / k, m, a);
  }

  lemma Quotients(a: nat, b: nat, k: nat)
    requires a <= b && k > 0
    ensures a / k <= b / k
  {
    Exceeds(a / k, k, b);
  }

  lemma ShareBounds(limit: nat, m: nat, k: nat, j: nat)
    requires j < m <= k
    ensures limit / k <= Share(limit, m, j) <= limit
  {
    SmallerDivisor(limit, m, k);
    ShareAtMost(limit, m, j);
  }

  /** The share of a live status lies between those two. */
  lemma {:induction false} StatusShareBounds(sel: Selection, c: Option<string>, limit: nat, key: string)
    requires sel.cursor.None? && key in StatusKeys(sel) && StatusLive(At(c), key).At?
    ensures var plan := PlanFor(sel, c, limit);
            limit / |StatusKeys(sel)| <= LimitOf(plan.calls, plan.limits, key) <= limit
  {
    var plan, keys := PlanFor(sel, c, limit), StatusKeys(sel);
    StatusKeysDiffer(sel);
    StatusCallsFacts(c, keys);
    var j :| 0 <= j < |plan.calls| && plan.calls[j] == Call(key, StatusLive(At(c), key).cursor);
    LimitOfCall(plan.calls, plan.limits, j);
    ShareBounds(limit, |plan.calls|, |keys|, j);
  }

  lemma SizeBetween(low: nat, share: nat, high: nat)
    requires low <= share <= high && Tele2Size(low) == Tele2Size(high)
    ensures Tele2Size(share) == Tele2Size(high)
  {
  }

  lemma SizeBetweenLimits(first: nat, limit: nat, last: nat, k: nat, share: nat)
    requires k > 0 && first <= limit <= last && limit / k <= share <= limit
    requires Tele2Size(first / k) == Tele2Size(last)
    ensures Tele2Size(share) == Tele2Size(last)
  {
    Quotients(first, limit, k);
    SizeBetween(first / k, share, last);
  }

  /** Under a steady selection Tele2 always gets pages of one size. */
  lemma {:induction false} SteadySize(ask: Ask, cursors: Listing.CursorMap, i: nat, c: Option<string>, key: string)
    requires i < |ask.selections| && ask.selections[i].cursor.None? && Steady(ask, i)
    requires key in StatusKeys(ask.selections[i]) && StatusLive(At(c), key).At?
    ensures var plan := PlanOn(ask, cursors, i, c);
            Tele2Size(LimitOf(plan.calls, plan.limits, key)) == Tele2Size(LastLimit(ask, i))
  {
    var limit := LimitFor(ask, cursors, i);
    var plan := PlanOn(ask, cursors, i, c);
    LimitBounds(ask, cursors, i);
    StatusShareBounds(ask.selections[i], c, limit, key);
    SizeBetweenLimits(FirstLimit(ask, i), limit, LastLimit(ask, i), |StatusKeys(ask.selections[i])|,
                      LimitOf(plan.calls, plan.limits, key));
  }

  // ---------- Runs over the real adapters ----------

  /** A request of the run, over these lists. */
  ghost predicate RealSearchTurn(t: SearchTurn, ask: Ask, lists: string -> Lists) {
    exists ending :: DatedEnding(ending) && t.env.fetch == RealStatusFetch(ask.selections, lists, ending)
  }

  /** No selection fixes a cursor of its own; dates are formatted. */
  predicate Fresh(ask: Ask) {
    WellFormed(ask) && forall sel | sel in ask.selections :: sel.cursor.None? && DatedFilters(sel.filters)
  }

  /** A run with more requests than any list has SIMs. */
  ghost predicate SearchRun(turns: seq<SearchTurn>, ask: Ask, lists: string -> Lists) {
    && turns != [] && (forall t | t in turns :: RealSearchTurn(t, ask, lists))
    && forall j: nat, k | j < |ask.selections| && k in StatusKeys(ask.selections[j]) ::
         |ListOf(lists(k), ask.selections[j].provider)| < |turns|
  }

  /** The provider can be set up every time. For Tele2 the client also keeps to
      the limit it began with; for the others it may change. */
  ghost predicate Served(turns: seq<SearchTurn>, ask: Ask, i: nat)
    requires i < |ask.selections|
  {
    var p := ask.selections[i].provider;
    forall t | t in turns :: t.env.setup(p).Ready? && (p == "tele2" ==> t.limit == ask.limit)
  }

  /** What a run reads of the i-th selection's list for a status. */
  function ReadOf(turns: seq<SearchTurn>, ask: Ask, i: nat, key: string): seq<Sim>
    requires i < |ask.selections|
  {
    Of(key, Follow(SearchPage(ask.selections, i, key), None, turns).items)
  }

  lemma AnswerOf(t: SearchTurn, ask: Ask, lists: string -> Lists, ending: Ending, i: nat, key: string,
                 c: Option<string>, n: nat)
    requires WellFormed(ask) && i < |ask.selections| && t.env.fetch == RealStatusFetch(ask.selections, lists, ending)
    ensures var sel := ask.selections[i];
            t.env.fetch(sel.provider, key, c, n) ==
              FilteredPage(lists(key), sel.filters, key != "", ending, sel.provider, c, n)
  {
    IndexOfProvider(ask, i);
  }

  lemma RealTurnIsNative(t: SearchTurn, ask: Ask, lists: string -> Lists)
    requires RealSearchTurn(t, ask, lists)
    ensures forall p, k, c, n :: Native(t.env.fetch(p, k, c, n))
  {
    var ending :| DatedEnding(ending) && t.env.fetch == RealStatusFetch(ask.selections, lists, ending);
    forall p, k, c, n ensures Native(t.env.fetch(p, k, c, n)) {
      var i := IndexOf(ask.selections, p);
      if i < |ask.selections| { FilteredIsNative(lists(k), ask.selections[i].filters, k != "", ending, p, c, n); }
    }
  }

  function StatusStreams(ask: Ask, lists: string -> Lists): (nat, string) -> Stream {
    (j: nat, k: string) =>
      StreamOf(lists(k), AnyWindow(), 1, if j < |ask.selections| then ask.selections[j].provider else "kite")
  }

  lemma RealTurnMoves(t: SearchTurn, ask: Ask, lists: string -> Lists)
    requires Fresh(ask) && RealSearchTurn(t, ask, lists)
    ensures Moves(t, ask.selections, StatusStreams(ask, lists))
  {
    var streams := StatusStreams(ask, lists);
    var ending :| DatedEnding(ending) && t.env.fetch == RealStatusFetch(ask.selections, lists, ending);
    RealTurnIsNative(t, ask, lists);
    forall j: nat, k, c, n: nat |
      j < |ask.selections| && k in StatusKeys(ask.selections[j]) && OnTrack(streams(j, k), At(c))
      ensures MovesOn(streams(j, k), c, t.env.fetch(ask.selections[j].provider, k, c, n))
    {
      assert ask.selections[j] in ask.selections;
      AnswerOf(t, ask, lists, ending, j, k, c, n);
      FilteredMovesOn(lists(k), ask.selections[j].filters, k != "", ending, ask.selections[j].provider, c, n);
    }
  }

  /** Over the real adapters every search ends. */
  lemma {:induction false} RealSearchEnds(turns: seq<SearchTurn>, ask: Ask, i: nat, key: string,
                                          lists: string -> Lists)
    requires Fresh(ask) && i < |ask.selections| && SearchRun(turns, ask, lists)
    ensures Follow(SearchPage(ask.selections, i, key), None, turns).Ended?
  {
    var streams := StatusStreams(ask, lists);
    forall t | t in turns ensures Moves(t, ask.selections, streams) { RealTurnMoves(t, ask, lists); }
    forall j: nat, k | j < |ask.selections| && k in StatusKeys(ask.selections[j])
      ensures streams(j, k).pos(None) == 0 && |streams(j, k).items| < |turns|
    {
      var p := ask.selections[j].provider;
      StreamsStartAtZero(lists(k), AnyWindow(), 1, p);
      WindowsAgree(lists(k), AnyWindow(), AnyWindow(), 1, p);
    }
    SearchTerminates(ask.selections, turns, i, key, streams, |turns|);
  }

  function SizesOf(ask: Ask, i: nat): nat -> bool
    requires i < |ask.selections|
  {
    n => ask.selections[i].provider == "tele2" ==> Tele2Size(n) == Tele2Size(LastLimit(ask, i))
  }

  lemma RealStatusMeets(t: SearchTurn, ask: Ask, i: nat, key: string, lists: string -> Lists, size: nat,
                        c: Option<string>, n: nat)
    requires Fresh(ask) && i < |ask.selections| && RealSearchTurn(t, ask, lists)
    requires Takes(ask.selections[i].provider, ask.selections[i].filters, key != "")
    requires ask.selections[i].provider == "tele2" ==> Tele2Size(n) == size
    requires OnTrack(StreamOf(lists(key), AnyWindow(), size, ask.selections[i].provider), At(c))
    ensures var p := ask.selections[i].provider;
            Meets(StreamOf(lists(key), AnyWindow(), size, p), c, n, t.env.fetch(p, key, c, n))
  {
    var sel := ask.selections[i];
    assert sel in ask.selections;
    var ending :| DatedEnding(ending) && t.env.fetch == RealStatusFetch(ask.selections, lists, ending);
    AnswerOf(t, ask, lists, ending, i, key, c, n);
    TakenPageMeets(lists(key), sel.filters, key != "", ending, size, sel.provider, c, n);
  }

  predicate AsksForStatus(sel: Selection) {
    (sel.status.Some? && sel.status.value != "") || exists s :: s in sel.statuses && s != ""
  }

  /** The adapter takes what the selection asks for. */
  predicate Accepted(sel: Selection) { Takes(sel.provider, sel.filters, AsksForStatus(sel)) }

  lemma StatusesAsked(sel: Selection, key: string)
    requires key in StatusKeys(sel)
    ensures key != "" <==> AsksForStatus(sel)
  {
    StatusKeysHas(sel, key);
  }

  lemma RealSearchServes(t: SearchTurn, ask: Ask, i: nat, key: string, lists: string -> Lists, size: nat)
    requires Fresh(ask) && i < |ask.selections| && RealSearchTurn(t, ask, lists)
    requires t.env.setup(ask.selections[i].provider).Ready? && size == Tele2Size(LastLimit(ask, i))
    requires ask.selections[i].provider == "tele2" ==> t.limit == ask.limit && Steady(ask, i)
    requires key in StatusKeys(ask.selections[i]) && Accepted(ask.selections[i])
    ensures var s := StreamOf(lists(key), AnyWindow(), size, ask.selections[i].provider);
            Search.Serves(t, ask.selections, i, key, s, SizesOf(ask, i))
  {
    var p := ask.selections[i].provider;
    var s := StreamOf(lists(key), AnyWindow(), size, p);
    assert ask.selections[i] in ask.selections;
    RealTurnIsNative(t, ask, lists);
    StatusesAsked(ask.selections[i], key);
    forall c, n: nat | SizesOf(ask, i)(n) && OnTrack(s, At(c)) ensures Meets(s, c, n, t.env.fetch(p, key, c, n)) {
      RealStatusMeets(t, ask, i, key, lists, size, c, n);
    }
    forall cursors, c | StatusLive(At(c), key).At?
      ensures var plan := PlanOn(Ask(ask.selections, t.limit), cursors, i, c);
              SizesOf(ask, i)(LimitOf(plan.calls, plan.limits, key))
    {
      if p == "tele2" { SteadySize(ask, cursors, i, c, key); }
    }
  }

  /** Every search over the real adapters ends. If an adapter takes what its
      selection asks for, the list of each status has then been read whole and in
      order, of Tele2 under a steady selection, of the others whatever the limits. */
  lemma {:induction false} RealSearchCovers(turns: seq<SearchTurn>, ask: Ask, i: nat, key: string,
                                            lists: string -> Lists)
    requires Fresh(ask) && i < |ask.selections| && SearchRun(turns, ask, lists) && Served(turns, ask, i)
    requires key in StatusKeys(ask.selections[i]) && Accepted(ask.selections[i])
    requires ask.selections[i].provider == "tele2" ==> Steady(ask, i)
    ensures Follow(SearchPage(ask.selections, i, key), None, turns).Ended?
    ensures ReadOf(turns, ask, i, key) == ListOf(lists(key), ask.selections[i].provider)
  {
    var p, size := ask.selections[i].provider, Tele2Size(LastLimit(ask, i));
    var s := StreamOf(lists(key), AnyWindow(), size, p);
    assert ask.selections[i] in ask.selections;
    forall t | t in turns ensures Search.Serves(t, ask.selections, i, key, s, SizesOf(ask, i)) {
      RealSearchServes(t, ask, i, key, lists, size);
    }
    StreamsStartAtZero(lists(key), AnyWindow(), size, p);
    WindowsAgree(lists(key), AnyWindow(), AnyWindow(), size, p);
    RealSearchEnds(turns, ask, i, key, lists);
    RunCoversStream(ask.selections, turns, i, key, s, SizesOf(ask, i));
  }

  // ---------- Selections that are refused ----------

  lemma RefusedAnswer(t: SearchTurn, ask: Ask, i: nat, key: string, lists: string -> Lists, n: nat)
    requires Fresh(ask) && i < |ask.selections| && RealSearchTurn(t, ask, lists)
    requires key in StatusKeys(ask.selections[i]) && !Accepted(ask.selections[i])
    ensures t.env.fetch(ask.selections[i].provider, key, None, n).Failed?
  {
    var sel := ask.selections[i];
    assert sel in ask.selections;
    var ending :| DatedEnding(ending) && t.env.fetch == RealStatusFetch(ask.selections, lists, ending);
    StatusesAsked(sel, key);
    AnswerOf(t, ask, lists, ending, i, key, None, n);
    RefusedPage(lists(key), sel.filters, key != "", ending, sel.provider, n);
  }

  /** The first page reads nothing of a refused selection and leaves it out. */
  lemma {:induction false} RefusedOnFirstPage(t: SearchTurn, ask: Ask, i: nat, key: string, lists: string -> Lists)
    requires Fresh(ask) && i < |ask.selections| && RealSearchTurn(t, ask, lists)
    requires key in StatusKeys(ask.selections[i]) && !Accepted(ask.selections[i])
    ensures var r := SearchPage(ask.selections, i, key)(None, t);
            Of(key, r.items) == [] && LiveNext(StreamIn(ask.selections[i].provider, key), r.next) == Done
  {
    var sel, here := ask.selections[i], Ask(ask.selections, t.limit);
    assert sel in ask.selections && DecodeGlobal(None) == None;
    var plan := PlanOn(here, None, i, None);
    RealTurnIsNative(t, ask, lists);
    RefusedAnswer(t, ask, i, key, lists, LimitOf(plan.calls, plan.limits, key));
    ProviderPage(t.env, sel, None, LimitFor(here, None, i), key);
    StreamStep(here, i, key, None, t.env);
    OfTag(key, key, StreamReads(here, i, key, None, t.env));
  }

  /** And nothing is ever read of it. */
  lemma {:induction false} RefusedIsNeverRead(turns: seq<SearchTurn>, ask: Ask, i: nat, key: string,
                                              lists: string -> Lists)
    requires Fresh(ask) && i < |ask.selections| && forall t | t in turns :: RealSearchTurn(t, ask, lists)
    requires key in StatusKeys(ask.selections[i]) && !Accepted(ask.selections[i])
    ensures ReadOf(turns, ask, i, key) == []
  {
    if turns != [] {
      var step := SearchPage(ask.selections, i, key);
      assert ask.selections[i] in ask.selections;
      RefusedOnFirstPage(turns[0], ask, i, key, lists);
      forall t | t in turns[1..] ensures forall p, k, c, n :: Native(t.env.fetch(p, k, c, n)) {
        RealTurnIsNative(t, ask, lists);
      }
      if step(None, turns[0]).next.Some? {
        DrainedStaysDrained(ask.selections, turns[1..], i, key, step(None, turns[0]).next);
      }
      NothingOnFirstPage(step, None, turns, key);
    }
  }

  // ---------- Selections that lose SIMs ----------

  /** Only one list has SIMs: Tele2's for this status. */
  ghost predicate OnlyStream(t: SearchTurn, ask: Ask, key: string, list: seq<Sim>) {
    && t.limit == ask.limit && (forall p :: t.env.setup(p).Ready?)
    && (forall p, k, c, n :: Native(t.env.fetch(p, k, c, n)))
    && (forall p, k, c, n: nat | IsProvider(p) && (p != "tele2" || k != key) :: After(t.env.fetch(p, k, c, n)) == Done)
    && forall c, n: nat :: Tele2Answers(t.env.fetch("tele2", key, c, n), list, CursorFields(c).page, Tele2Size(n))
  }

  /** The i-th selection is Tele2's, and `key` the last of its statuses. */
  predicate LastStatus(ask: Ask, i: nat, key: string) {
    && Fresh(ask) && i < |ask.selections| && ask.selections[i].provider == "tele2"
    && key == StatusKeys(ask.selections[i])[|StatusKeys(ask.selections[i])| - 1]
  }

  /** Every other stream is through after one page. */
  lemma OthersEnd(t: SearchTurn, ask: Ask, key: string, list: seq<Sim>, cursor: Option<string>, j: nat, k: string)
    requires OnlyStream(t, ask, key, list) && Fresh(ask) && j < |ask.selections|
    requires k in StatusKeys(ask.selections[j]) && (ask.selections[j].provider != "tele2" || k != key)
    ensures LiveNext(StreamIn(ask.selections[j].provider, k), SearchNext(ask, cursor, t.env)) == Done
  {
    assert ask.selections[j] in ask.selections;
    StreamStep(ask, j, k, cursor, t.env);
  }

  /** And so is every other provider. */
  lemma OtherProvidersEnd(t: SearchTurn, ask: Ask, key: string, list: seq<Sim>, cursor: Option<string>, j: nat)
    requires OnlyStream(t, ask, key, list) && Fresh(ask)
    requires j < |ask.selections| && ask.selections[j].provider != "tele2"
    requires SearchNext(ask, cursor, t.env).Some?
    ensures Listing.LiveAt(DecodeGlobal(SearchNext(ask, cursor, t.env)), ask.selections[j].provider) == Done
  {
    assert ask.selections[j] in ask.selections;
    NextOfProvider(ask, cursor, t.env, j);
    DictOfProvider(ask, DecodeGlobal(cursor), t.env, j);
    if Listing.LiveAt(Some(ToMap(SearchDict(ask, DecodeGlobal(cursor), t.env))), ask.selections[j].provider).At? {
      LiveProviderHasStream(ask, cursor, t.env, j);
      forall k | k in StatusKeys(ask.selections[j])
        ensures LiveNext(StreamIn(ask.selections[j].provider, k), SearchNext(ask, cursor, t.env)) == Done
      {
        OthersEnd(t, ask, key, list, cursor, j, k);
      }
    }
  }

  lemma {:induction false} NoneTaken(selections: seq<Selection>, cursors: Listing.CursorMap)
    requires forall s | s in selections :: Listing.LiveAt(cursors, s.provider) == Done
    ensures Taken(selections, cursors) == 0
  {
    if selections != [] { NoneTaken(selections[..|selections| - 1], cursors); }
  }

  lemma {:induction false} LastLimitApplies(t: SearchTurn, ask: Ask, i: nat, key: string, list: seq<Sim>,
                                            cursor: Option<string>)
    requires OnlyStream(t, ask, key, list) && LastStatus(ask, i, key) && SearchNext(ask, cursor, t.env).Some?
    ensures LimitFor(ask, DecodeGlobal(SearchNext(ask, cursor, t.env)), i) == LastLimit(ask, i)
  {
    var cursors := DecodeGlobal(SearchNext(ask, cursor, t.env));
    forall s | s in ask.selections[..i] ensures Listing.LiveAt(cursors, s.provider) == Done {
      var j :| 0 <= j < i && ask.selections[..i][j] == s;
      OtherProvidersEnd(t, ask, key, list, cursor, j);
    }
    NoneTaken(ask.selections[..i], cursors);
    LimitBounds(ask, cursors, i);
  }

  lemma {:induction false} AllStatusesCalled(keys: seq<string>)
    ensures |StatusCalls(None, keys)| == |keys|
    ensures forall j | 0 <= j < |keys| :: StatusCalls(None, keys)[j] == Call(keys[j], None)
  {
    if keys != [] { AllStatusesCalled(keys[..|keys| - 1]); }
  }

  lemma {:induction false} NoStatusCalled(c: Option<string>, keys: seq<string>)
    requires forall k | k in keys :: StatusLive(At(c), k) == Done
    ensures StatusCalls(c, keys) == []
  {
    if keys != [] { NoStatusCalled(c, keys[..|keys| - 1]); }
  }

  lemma LastShare(limit: nat, k: nat)
    requires k > 0
    ensures Share(limit, k, k - 1) == limit / k
  {
  }

  /** On the first page the last status gets the smallest share. */
  lemma {:induction false} FirstShareOf(sel: Selection, limit: nat, key: string)
    requires sel.cursor.None? && key == StatusKeys(sel)[|StatusKeys(sel)| - 1]
    ensures var plan := PlanFor(sel, None, limit);
            LimitOf(plan.calls, plan.limits, key) == limit / |StatusKeys(sel)|
  {
    var plan, keys := PlanFor(sel, None, limit), StatusKeys(sel);
    StatusKeysDiffer(sel);
    StatusCallsFacts(None, keys);
    AllStatusesCalled(keys);
    LimitOfCall(plan.calls, plan.limits, |keys| - 1);
    LastShare(limit, |keys|);
  }

  /** Alone it gets all of it. */
  lemma {:induction false} OnlyShareOf(sel: Selection, c: Option<string>, limit: nat, key: string)
    requires sel.cursor.None? && key == StatusKeys(sel)[|StatusKeys(sel)| - 1]
    requires StatusLive(At(c), key).At? && forall k | k in StatusKeys(sel) && k != key :: StatusLive(At(c), k) == Done
    ensures var plan := PlanFor(sel, c, limit); LimitOf(plan.calls, plan.limits, key) == limit
  {
    var plan, keys := PlanFor(sel, c, limit), StatusKeys(sel);
    var n := |keys| - 1;
    StatusKeysDiffer(sel);
    forall k | k in keys[..n] ensures StatusLive(At(c), k) == Done { assert k in keys && k != keys[n]; }
    NoStatusCalled(c, keys[..n]);
    assert plan.calls == [Call(key, StatusLive(At(c), key).cursor)];
    LimitOfCall(plan.calls, plan.limits, 0);
    LastShare(limit, 1);
  }

  /** The first page: what the smallest share reads of the list, and page 2 next. */
  lemma {:induction false} FirstSearchPage(t: SearchTurn, ask: Ask, i: nat, key: string, list: seq<Sim>, size: nat)
    requires OnlyStream(t, ask, key, list) && LastStatus(ask, i, key)
    requires size == Tele2Size(FirstLimit(ask, i) / |StatusKeys(ask.selections[i])|) < |list|
    ensures StreamReads(ask, i, key, None, t.env) == list[..size]
    ensures var live := LiveNext(StreamIn("tele2", key), SearchNext(ask, None, t.env));
            live.At? && CursorFields(live.cursor).page == 2
  {
    var sel := ask.selections[i];
    assert sel in ask.selections && DecodeGlobal(None) == None;
    var plan := PlanOn(ask, None, i, None);
    var f := Answer(t.env, plan, None, key);
    FirstShareOf(sel, FirstLimit(ask, i), key);
    ProviderPage(t.env, sel, None, FirstLimit(ask, i), key);
    StreamStep(ask, i, key, None, t.env);
    assert Tele2Answers(f, list, 1, size);
    FirstSlice(list, size);
  }

  /** The second page asks for page 2 with the largest share. */
  lemma {:induction false} SecondSearchPage(t: SearchTurn, ask: Ask, i: nat, key: string, list: seq<Sim>, size: nat,
                                            cursor: Option<string>)
    requires OnlyStream(t, ask, key, list) && LastStatus(ask, i, key)
    requires size == Tele2Size(LastLimit(ask, i)) >= |list|
    requires LimitFor(ask, DecodeGlobal(cursor), i) == LastLimit(ask, i)
    requires StreamIn("tele2", key)(cursor).At? && CursorFields(StreamIn("tele2", key)(cursor).cursor).page == 2
    requires forall k | k in StatusKeys(ask.selections[i]) && k != key :: StreamIn("tele2", k)(cursor) == Done
    ensures StreamReads(ask, i, key, DecodeGlobal(cursor), t.env) == []
    ensures LiveNext(StreamIn("tele2", key), SearchNext(ask, cursor, t.env)) == Done
  {
    var sel, cursors := ask.selections[i], DecodeGlobal(cursor);
    assert sel in ask.selections;
    var c := Listing.LiveAt(cursors, "tele2").cursor;
    var live := StatusLive(At(c), key);
    var plan := PlanOn(ask, cursors, i, c);
    OnlyShareOf(sel, c, LastLimit(ask, i), key);
    ProviderPage(t.env, sel, c, LastLimit(ask, i), key);
    StreamStep(ask, i, key, cursor, t.env);
    assert Tele2Answers(Answer(t.env, plan, live.cursor, key), list, 2, size);
  }

  /** After the first page, the second one reads nothing, and the stream is through. */
  lemma {:induction false} NothingOnSecondPage(first: SearchTurn, second: SearchTurn, ask: Ask, i: nat, key: string,
                                               list: seq<Sim>, size: nat)
    requires OnlyStream(first, ask, key, list) && OnlyStream(second, ask, key, list) && LastStatus(ask, i, key)
    requires size == Tele2Size(FirstLimit(ask, i) / |StatusKeys(ask.selections[i])|)
    requires size < |list| <= Tele2Size(LastLimit(ask, i))
    ensures var next := SearchNext(ask, None, first.env);
            next.Some? && StreamReads(ask, i, key, DecodeGlobal(next), second.env) == []
            && LiveNext(StreamIn("tele2", key), SearchNext(ask, next, second.env)) == Done
  {
    FirstSearchPage(first, ask, i, key, list, size);
    var next := SearchNext(ask, None, first.env);
    LastLimitApplies(first, ask, i, key, list, None);
    forall k | k in StatusKeys(ask.selections[i]) && k != key ensures StreamIn("tele2", k)(next) == Done {
      OthersEnd(first, ask, key, list, None, i, k);
    }
    SecondSearchPage(second, ask, i, key, list, Tele2Size(LastLimit(ask, i)), next);
  }

  lemma {:induction false} NothingReadLater(turns: seq<SearchTurn>, ask: Ask, i: nat, key: string, list: seq<Sim>,
                                            cursor: Option<string>)
    requires LastStatus(ask, i, key) && (forall t | t in turns :: OnlyStream(t, ask, key, list))
    requires StreamIn("tele2", key)(cursor) == Done
    ensures Of(key, Follow(SearchPage(ask.selections, i, key), cursor, turns).items) == []
  {
    assert ask.selections[i] in ask.selections;
    DrainedStaysDrained(ask.selections, turns, i, key, cursor);
  }

  /** What the page of a run reads of one stream. */
  lemma {:induction false} PageReads(t: SearchTurn, ask: Ask, i: nat, key: string, cursor: Option<string>)
    requires i < |ask.selections| && t.limit == ask.limit
    ensures var r := SearchPage(ask.selections, i, key)(cursor, t);
            r.Listed? && r.next == SearchNext(ask, cursor, t.env)
            && Of(key, r.items) == StreamReads(ask, i, key, DecodeGlobal(cursor), t.env)
  {
    OfTag(key, key, StreamReads(ask, i, key, DecodeGlobal(cursor), t.env));
  }

  /** So the run reads no more than the first page of the list. */
  lemma {:induction false} SearchLosesSims(turns: seq<SearchTurn>, ask: Ask, i: nat, key: string, list: seq<Sim>,
                                           size: nat)
    requires |turns| >= 2 && LastStatus(ask, i, key) && forall t | t in turns :: OnlyStream(t, ask, key, list)
    requires size == Tele2Size(FirstLimit(ask, i) / |StatusKeys(ask.selections[i])|)
    requires size < |list| <= Tele2Size(LastLimit(ask, i))
    ensures ReadOf(turns, ask, i, key) == list[..size]
  {
    var step, first, second := SearchPage(ask.selections, i, key), turns[0], turns[1];
    var next := SearchNext(ask, None, first.env);
    var last := SearchNext(ask, next, second.env);
    FirstSearchPage(first, ask, i, key, list, size);
    NothingOnSecondPage(first, second, ask, i, key, list, size);
    PageReads(first, ask, i, key, None);
    PageReads(second, ask, i, key, next);
    if last.Some? { NothingReadLater(turns[1..][1..], ask, i, key, list, last); }
    TwoPages(step, turns, key, list[..size]);
  }

  // ---------- The condition is exact ----------

  /** Only one provider has SIMs, and these all have one status. */
  function OnlyStatus(p: string, key: string, n: nat): string -> Lists { k => OnlyList(p, if k == key then n else 0) }

  function LosingTurn(ask: Ask, p: string, key: string, n: nat): SearchTurn {
    SearchTurn(ask.limit,
               SearchEnv(q => Listing.Ready,
                         RealStatusFetch(ask.selections, OnlyStatus(p, key, n), AnyWindow().defaultTill),
                         (q, k, sim) => true))
  }

  lemma LosingTurnIsReal(ask: Ask, p: string, key: string, n: nat)
    ensures RealSearchTurn(LosingTurn(ask, p, key, n), ask, OnlyStatus(p, key, n))
  {
    assert DatedEnding(AnyWindow().defaultTill);
  }

  lemma OtherStreamEnds(ask: Ask, key: string, n: nat, p: string, k: string, c: Option<string>, m: nat)
    requires Fresh(ask) && IsProvider(p) && (p != "tele2" || k != key)
    ensures After(LosingTurn(ask, "tele2", key, n).env.fetch(p, k, c, m)) == Done
  {
    var i, lists := IndexOf(ask.selections, p), OnlyStatus("tele2", key, n)(k);
    OnlyListFacts("tele2", if k == key then n else 0);
    if i < |ask.selections| {
      assert ask.selections[i] in ask.selections;
      assert ListOf(lists, p) == [];
      EmptyListEnds(lists, ask.selections[i].filters, k != "", AnyWindow().defaultTill, p, c, m);
    }
  }

  /** The selection is Tele2's, and taken. */
  ghost predicate TakenByTele2(ask: Ask, i: nat)
    requires i < |ask.selections|
  {
    exists sel :: sel == ask.selections[i] && Fresh(ask) && sel.provider == "tele2" && Accepted(sel)
  }

  lemma {:induction false} Tele2StreamAnswers(ask: Ask, i: nat, key: string, n: nat, c: Option<string>, m: nat)
    requires i < |ask.selections| && TakenByTele2(ask, i)
    ensures Tele2Answers(LosingTurn(ask, "tele2", key, n).env.fetch("tele2", key, c, m),
                         OnlyList("tele2", n).tele2, CursorFields(c).page, Tele2Size(m))
  {
    var sel, ending := ask.selections[i], AnyWindow().defaultTill;
    assert sel in ask.selections;
    assert |"kite"| == 4 && |"tele2"| == 5 && |"moabits"| == 7;
    AnswerOf(LosingTurn(ask, "tele2", key, n), ask, OnlyStatus("tele2", key, n), ending, i, key, c, m);
    Tele2PageAnswers(OnlyList("tele2", n).tele2, Window(sel.filters.since, sel.filters.till, ending), c, m);
  }

  lemma {:induction false} LosingTurnIsOnlyStream(ask: Ask, i: nat, key: string, n: nat)
    requires i < |ask.selections| && TakenByTele2(ask, i)
    ensures OnlyStream(LosingTurn(ask, "tele2", key, n), ask, key, OnlyList("tele2", n).tele2)
  {
    var t := LosingTurn(ask, "tele2", key, n);
    LosingTurnIsReal(ask, "tele2", key, n);
    RealTurnIsNative(t, ask, OnlyStatus("tele2", key, n));
    forall p, k, c, m: nat | IsProvider(p) && (p != "tele2" || k != key)
      ensures After(t.env.fetch(p, k, c, m)) == Done
    {
      OtherStreamEnds(ask, key, n, p, k, c, m);
    }
    forall c, m: nat
      ensures Tele2Answers(t.env.fetch("tele2", key, c, m), OnlyList("tele2", n).tele2, CursorFields(c).page,
                           Tele2Size(m))
    {
      Tele2StreamAnswers(ask, i, key, n, c, m);
    }
  }

  /** No SIM is listed twice under a status, or under two statuses of a provider. */
  ghost predicate OneStatusPerSim(lists: string -> Lists) {
    && (forall k :: OneListPerSim(lists(k)))
    && forall p, k, k', sim | sim in ListOf(lists(k), p) && sim in ListOf(lists(k'), p) :: k == k'
  }

  lemma OnlyStatusIsDistinct(p: string, key: string, n: nat)
    requires IsProvider(p)
    ensures OneStatusPerSim(OnlyStatus(p, key, n))
  {
    var lists := OnlyStatus(p, key, n);
    forall k ensures OneListPerSim(lists(k)) { OnlyListFacts(p, if k == key then n else 0); }
    forall q, k, k', sim | sim in ListOf(lists(k), q) && sim in ListOf(lists(k'), q) ensures k == k' {
      NothingListed(p, q);
    }
  }

  /** Every status of the i-th selection is read whole and in order by every search
      that sends its limit unchanged, for all lists without repeats. */
  ghost predicate SearchIsComplete(ask: Ask, i: nat)
    requires i < |ask.selections|
  {
    forall turns, lists, key |
      key in StatusKeys(ask.selections[i]) && SearchRun(turns, ask, lists) && Served(turns, ask, i)
      && OneStatusPerSim(lists) ::
      ReadOf(turns, ask, i, key) == ListOf(lists(key), ask.selections[i].provider)
  }

  lemma SizesGrow(first: nat, last: nat, k: nat)
    requires k > 0 && first <= last
    ensures Tele2Size(first / k) <= Tele2Size(last)
  {
    SmallerDivisor(first, 1, k);
  }

  function LosingTurns(ask: Ask, p: string, key: string, n: nat): seq<SearchTurn> {
    seq(n + 2, j => LosingTurn(ask, p, key, n))
  }

  /** On every turn only that list has SIMs. */
  ghost predicate OnlyStreams(turns: seq<SearchTurn>, ask: Ask, key: string, list: seq<Sim>) {
    turns == [] || (OnlyStream(turns[0], ask, key, list) && OnlyStreams(turns[1..], ask, key, list))
  }

  lemma {:induction false} EachIsOnlyStream(turns: seq<SearchTurn>, ask: Ask, key: string, list: seq<Sim>)
    requires OnlyStreams(turns, ask, key, list)
    ensures forall t | t in turns :: OnlyStream(t, ask, key, list)
  {
    if turns != [] {
      EachIsOnlyStream(turns[1..], ask, key, list);
      assert turns == [turns[0]] + turns[1..];
    }
  }

  lemma {:induction false} SameTurnIsOnlyStream(turns: seq<SearchTurn>, turn: SearchTurn, ask: Ask, key: string,
                                                list: seq<Sim>)
    requires OnlyStreams([turn], ask, key, list) && forall t | t in turns :: t == turn
    ensures OnlyStreams(turns, ask, key, list)
  {
    if turns != [] {
      assert turns[0] in turns && forall t | t in turns[1..] :: t in turns;
      SameTurnIsOnlyStream(turns[1..], turn, ask, key, list);
      assert [turn][0] == turn;
    }
  }

  /** The page size of the smallest share, which is not that of the largest. */
  ghost predicate LosingSize(ask: Ask, i: nat, key: string, size: nat)
    requires i < |ask.selections|
  {
    exists sel :: sel == ask.selections[i] && LastStatus(ask, i, key) && !Steady(ask, i)
                  && size == Tele2Size(FirstLimit(ask, i) / |StatusKeys(sel)|)
  }

  lemma {:induction false} IsLosingSize(ask: Ask, i: nat, key: string, size: nat)
    requires LastStatus(ask, i, key) && !Steady(ask, i) && Accepted(ask.selections[i])
    requires size == Tele2Size(FirstLimit(ask, i) / |StatusKeys(ask.selections[i])|)
    ensures LosingSize(ask, i, key, size) && TakenByTele2(ask, i)
  {
  }

  lemma LosingTurnsAreSame(ask: Ask, p: string, key: string, n: nat)
    ensures forall t | t in LosingTurns(ask, p, key, n) :: t == LosingTurn(ask, p, key, n)
  {
  }

  lemma {:induction false} OneIsEnough(turn: SearchTurn, ask: Ask, key: string, list: seq<Sim>)
    requires OnlyStream(turn, ask, key, list)
    ensures OnlyStreams([turn], ask, key, list)
  {
    assert [turn][1..] == [];
  }

  lemma {:induction false} LosingTurnFits(ask: Ask, i: nat, key: string, n: nat)
    requires i < |ask.selections| && TakenByTele2(ask, i)
    ensures OnlyStreams([LosingTurn(ask, "tele2", key, n)], ask, key, OnlyList("tele2", n).tele2)
  {
    LosingTurnIsOnlyStream(ask, i, key, n);
    OneIsEnough(LosingTurn(ask, "tele2", key, n), ask, key, OnlyList("tele2", n).tele2);
  }

  lemma {:induction false} LosingTurnsAreOnlyStreams(ask: Ask, i: nat, key: string, n: nat)
    requires i < |ask.selections| && TakenByTele2(ask, i)
    ensures OnlyStreams(LosingTurns(ask, "tele2", key, n), ask, key, OnlyList("tele2", n).tele2)
  {
    LosingTurnFits(ask, i, key, n);
    LosingTurnsAreSame(ask, "tele2", key, n);
    SameTurnIsOnlyStream(LosingTurns(ask, "tele2", key, n), LosingTurn(ask, "tele2", key, n), ask, key,
                         OnlyList("tele2", n).tele2);
  }

  /** The list has one SIM more than a page, and there are turns for two pages. */
  ghost predicate OneTooMany(turns: seq<SearchTurn>, list: seq<Sim>, size: nat) {
    exists sim :: sim in list && |turns| >= 2 && |list| == size + 1 && sim == list[size] && sim !in list[..size]
  }

  lemma {:induction false} LosingListIsOneTooMany(ask: Ask, key: string, size: nat)
    ensures OneTooMany(LosingTurns(ask, "tele2", key, size + 1), OnlyList("tele2", size + 1).tele2, size)
  {
    LastIsNew(size);
    var list := OnlyList("tele2", size + 1).tele2;
    assert list[size] in list;
  }

  lemma {:induction false} OnlyStreamReads(ask: Ask, i: nat, key: string, size: nat, turns: seq<SearchTurn>,
                                           list: seq<Sim>)
    requires i < |ask.selections| && LosingSize(ask, i, key, size)
    requires OneTooMany(turns, list, size) && OnlyStreams(turns, ask, key, list)
    ensures |list| == size + 1 && list[size] !in ReadOf(turns, ask, i, key)
  {
    EachIsOnlyStream(turns, ask, key, list);
    LimitBounds(ask, None, i);
    SizesGrow(FirstLimit(ask, i), LastLimit(ask, i), |StatusKeys(ask.selections[i])|);
    SearchLosesSims(turns, ask, i, key, list, size);
  }

  lemma {:induction false} LosingSearchFits(ask: Ask, i: nat, key: string, size: nat)
    requires i < |ask.selections| && TakenByTele2(ask, i)
    ensures OnlyStreams(LosingTurns(ask, "tele2", key, size + 1), ask, key, OnlyList("tele2", size + 1).tele2)
    ensures OneTooMany(LosingTurns(ask, "tele2", key, size + 1), OnlyList("tele2", size + 1).tele2, size)
  {
    LosingTurnsAreOnlyStreams(ask, i, key, size + 1);
    LosingListIsOneTooMany(ask, key, size);
  }

  lemma {:induction false} LosingSearchReads(ask: Ask, i: nat, key: string, size: nat)
    requires i < |ask.selections| && LosingSize(ask, i, key, size)
    requires OnlyStreams(LosingTurns(ask, "tele2", key, size + 1), ask, key, OnlyList("tele2", size + 1).tele2)
    requires OneTooMany(LosingTurns(ask, "tele2", key, size + 1), OnlyList("tele2", size + 1).tele2, size)
    ensures OnlyList("tele2", size + 1).tele2[size] !in ReadOf(LosingTurns(ask, "tele2", key, size + 1), ask, i, key)
  {
    OnlyStreamReads(ask, i, key, size, LosingTurns(ask, "tele2", key, size + 1), OnlyList("tele2", size + 1).tele2);
  }

  /** A search that is not steady can leave a SIM of Tele2 unread: its last status
      gets a larger page size as soon as the other streams are through, and page 2
      then starts behind the end of the list. */
  lemma {:induction false} UnsteadySearchLosesSim(ask: Ask, i: nat, key: string, size: nat)
    requires i < |ask.selections| && LosingSize(ask, i, key, size) && TakenByTele2(ask, i)
    ensures OnlyList("tele2", size + 1).tele2[size] !in ReadOf(LosingTurns(ask, "tele2", key, size + 1), ask, i, key)
  {
    LosingSearchFits(ask, i, key, size);
    LosingSearchReads(ask, i, key, size);
  }

  lemma OnlyStatusFits(p: string, key: string, n: nat, k: string, q: string)
    requires IsProvider(p) && IsProvider(q)
    ensures |ListOf(OnlyStatus(p, key, n)(k), q)| <= n
  {
    OnlyListFacts(p, if k == key then n else 0);
  }

  lemma {:induction false} LosingRun(ask: Ask, i: nat, p: string, key: string, n: nat)
    requires Fresh(ask) && i < |ask.selections| && IsProvider(p)
    ensures SearchRun(LosingTurns(ask, p, key, n), ask, OnlyStatus(p, key, n))
    ensures Served(LosingTurns(ask, p, key, n), ask, i)
  {
    LosingTurnIsReal(ask, p, key, n);
    forall j: nat, k | j < |ask.selections| && k in StatusKeys(ask.selections[j])
      ensures |ListOf(OnlyStatus(p, key, n)(k), ask.selections[j].provider)| <= n
    {
      assert ask.selections[j] in ask.selections;
      OnlyStatusFits(p, key, n, k, ask.selections[j].provider);
    }
  }

  /** The selection asks p for this status. */
  ghost predicate Asks(ask: Ask, i: nat, p: string, key: string)
    requires i < |ask.selections|
  {
    exists sel :: sel == ask.selections[i] && Fresh(ask) && sel.provider == p && key in StatusKeys(sel)
  }

  lemma {:induction false} LosingRunIsMissing(ask: Ask, i: nat, p: string, key: string, n: nat)
    requires i < |ask.selections| && Asks(ask, i, p, key)
    requires ReadOf(LosingTurns(ask, p, key, n), ask, i, key) != ListOf(OnlyStatus(p, key, n)(key), p)
    ensures !SearchIsComplete(ask, i)
  {
    assert ask.selections[i] in ask.selections;
    LosingRun(ask, i, p, key, n);
    OnlyStatusIsDistinct(p, key, n);
  }

  lemma LosingList(key: string, n: nat)
    ensures ListOf(OnlyStatus("tele2", key, n)(key), "tele2") == OnlyList("tele2", n).tele2
  {
    assert |"kite"| == 4 && |"tele2"| == 5;
  }

  lemma {:induction false} LosingReadDiffers(ask: Ask, i: nat, key: string, size: nat)
    requires i < |ask.selections| && LosingSize(ask, i, key, size) && TakenByTele2(ask, i)
    ensures ReadOf(LosingTurns(ask, "tele2", key, size + 1), ask, i, key) != OnlyList("tele2", size + 1).tele2
  {
    UnsteadySearchLosesSim(ask, i, key, size);
    var list := OnlyList("tele2", size + 1).tele2;
    assert list[size] in list;
  }

  lemma {:induction false} LosingIsMissing(ask: Ask, i: nat, key: string, size: nat)
    requires i < |ask.selections| && Asks(ask, i, "tele2", key)
    requires ReadOf(LosingTurns(ask, "tele2", key, size + 1), ask, i, key) != OnlyList("tele2", size + 1).tele2
    ensures !SearchIsComplete(ask, i)
  {
    LosingList(key, size + 1);
    LosingRunIsMissing(ask, i, "tele2", key, size + 1);
  }

  lemma {:induction false} LastIsAsked(ask: Ask, i: nat, key: string)
    requires LastStatus(ask, i, key)
    ensures Asks(ask, i, "tele2", key)
  {
    assert ask.selections[i].provider == "tele2";
  }

  lemma {:induction false} LosingIsIncomplete(ask: Ask, i: nat, key: string, size: nat)
    requires i < |ask.selections| && LosingSize(ask, i, key, size) && TakenByTele2(ask, i) && Asks(ask, i, "tele2", key)
    ensures !SearchIsComplete(ask, i)
  {
    LosingReadDiffers(ask, i, key, size);
    LosingIsMissing(ask, i, key, size);
  }

  lemma {:induction false} UnsteadyIsIncomplete(ask: Ask, i: nat, key: string, size: nat)
    requires LastStatus(ask, i, key) && !Steady(ask, i) && Accepted(ask.selections[i])
    requires size == Tele2Size(FirstLimit(ask, i) / |StatusKeys(ask.selections[i])|)
    ensures !SearchIsComplete(ask, i)
  {
    IsLosingSize(ask, i, key, size);
    LastIsAsked(ask, i, key);
    LosingIsIncomplete(ask, i, key, size);
  }

  /** One SIM is enough to see that a refused selection is not read. */
  lemma {:induction false} RefusedIsIncomplete(ask: Ask, i: nat)
    requires Fresh(ask) && i < |ask.selections| && !Accepted(ask.selections[i])
    ensures !SearchIsComplete(ask, i)
  {
    var p, key := ask.selections[i].provider, StatusKeys(ask.selections[i])[0];
    assert ask.selections[i] in ask.selections;
    LosingTurnIsReal(ask, p, key, 1);
    RefusedIsNeverRead(LosingTurns(ask, p, key, 1), ask, i, key, OnlyStatus(p, key, 1));
    LosingRunIsMissing(ask, i, p, key, 1);
  }

  lemma {:induction false} AcceptedIsComplete(ask: Ask, i: nat)
    requires Fresh(ask) && i < |ask.selections| && Accepted(ask.selections[i])
    requires ask.selections[i].provider == "tele2" ==> Steady(ask, i)
    ensures SearchIsComplete(ask, i)
  {
    forall turns, lists, key |
      key in StatusKeys(ask.selections[i]) && SearchRun(turns, ask, lists) && Served(turns, ask, i)
      ensures ReadOf(turns, ask, i, key) == ListOf(lists(key), ask.selections[i].provider)
    {
      RealSearchCovers(turns, ask, i, key, lists);
    }
  }

  /** A selection is always read whole exactly when its adapter takes what it asks
      for and, for Tele2, it is steady. */
  lemma {:induction false} SearchIsCompleteIff(ask: Ask, i: nat)
    requires Fresh(ask) && i < |ask.selections|
    ensures SearchIsComplete(ask, i)
            <==> Accepted(ask.selections[i]) && (ask.selections[i].provider == "tele2" ==> Steady(ask, i))
  {
    var keys := StatusKeys(ask.selections[i]);
    if !Accepted(ask.selections[i]) {
      RefusedIsIncomplete(ask, i);
    } else if ask.selections[i].provider == "tele2" && !Steady(ask, i) {
      UnsteadyIsIncomplete(ask, i, keys[|keys| - 1], Tele2Size(FirstLimit(ask, i) / |keys|));
    } else {
      AcceptedIsComplete(ask, i);
    }
  }

  /** Moabits must be asked for no status, and for no IMSI, MSISDN or custom field. */
  lemma {:induction false} MoabitsIsCompleteIff(ask: Ask, i: nat)
    requires Fresh(ask) && i < |ask.selections| && ask.selections[i].provider == "moabits"
    ensures SearchIsComplete(ask, i) <==> !AsksForStatus(ask.selections[i]) && !ask.selections[i].filters.device
  {
    assert |"tele2"| == 5 && |"moabits"| == 7;
    SearchIsCompleteIff(ask, i);
  }

  lemma OwnShares(limit: nat, k: nat)
    requires k > 0
    ensures Tele2Size(limit / k) == Tele2Size(limit) <==> k == 1 || limit <= 1 || limit >= 50 * k
  {
    Exceeds(limit / k, k, limit);
    QuotientReaches(limit, k);
    if k >= 2 { SmallerDivisor(limit, 2, k); }
  }

  lemma QuotientReaches(limit: nat, k: nat)
    requires k > 0
    ensures limit / k >= 50 <==> limit >= 50 * k
  {
    Exceeds(50, k, limit);
    if limit / k >= 50 {
      Products(50, limit / k, k);
      RoundsDown(limit, k);
    }
  }

  lemma RoundsDown(a: nat, m: nat)
    requires m > 0
    ensures a / m * m <= a
  {
  }

  /** With a limit of its own, Tele2 must have a start of the window, and one
      status, a limit of 1, or room for a full native page of each status. */
  lemma {:induction false} OwnLimitIsCompleteIff(ask: Ask, i: nat, limit: nat)
    requires Fresh(ask) && i < |ask.selections| && ask.selections[i].provider == "tele2"
    requires ask.selections[i].limit == Some(limit)
    ensures var k := |StatusKeys(ask.selections[i])|;
            SearchIsComplete(ask, i)
            <==> ask.selections[i].filters.since.Some? && (k == 1 || limit <= 1 || limit >= 50 * k)
  {
    SearchIsCompleteIff(ask, i);
    OwnShares(limit, |StatusKeys(ask.selections[i])|);
  }

  /** The shares of three selections without limits of their own. */
  lemma {:induction false} SharedLimits(ask: Ask)
    requires |ask.selections| == 3 && forall sel | sel in ask.selections :: sel.limit.None?
    ensures FirstLimit(ask, 1) == Share(ask.limit, 3, 1) && LastLimit(ask, 1) == Share(ask.limit, 3, 0)
  {
    var s := ask.selections;
    assert s[0] in s && s[1] in s && s[2] in s;
    assert s[..3] == s && s[..2][..1] == s[..1] && s[..1][..0] == [] && s[..3][..2] == s[..2];
    assert Unlimited(s[..1]) == 1 && Unlimited(s[..2]) == 2 && Unlimited(s) == 3;
    TakenFacts(s[..1], None);
  }

  lemma SharedSizes(limit: nat)
    ensures Tele2Size(Share(limit, 3, 1)) == Tele2Size(Share(limit, 3, 0))
            <==> limit % 3 != 1 || limit <= 1 || limit >= 150
  {
  }

  /** Kite, Tele2 and Moabits, one status of Tele2, and only a limit for the whole
      page: beside a start of the window, the limit must divide well, as Tele2's
      share changes once Kite is through. */
  lemma {:induction false} SharedLimitIsCompleteIff(ask: Ask)
    requires Fresh(ask) && Providers(ask.selections) == PROVIDERS && |StatusKeys(ask.selections[1])| == 1
    requires forall sel | sel in ask.selections :: sel.limit.None?
    ensures SearchIsComplete(ask, 1)
            <==> ask.selections[1].filters.since.Some?
                 && (ask.limit % 3 != 1 || ask.limit <= 1 || ask.limit >= 150)
  {
    assert ask.selections[1].provider == Providers(ask.selections)[1] == "tele2";
    assert ask.selections[1] in ask.selections;
    SharedLimits(ask);
    SearchIsCompleteIff(ask, 1);
    SharedSizes(ask.limit);
  }
}
