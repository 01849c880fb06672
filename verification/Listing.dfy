/** The global listing: one client page fanned out over the providers, and
    whole runs of pages chained through the opaque cursor. */
module Listing {
  import opened Option
  import opened Json
  import opened Cursors
  import opened Paging
  import opened FanOut
  import opened Runs
  import opened Unique

  /** How preparing a provider call ends: credentials or registry may fail. */
  datatype Setup = SetupFails | NotListable | Ready

  /** What the providers do during one page. */
  datatype Env = Env(setup: string -> Setup, fetch: Fetcher)

  type CursorMap = Option<map<string, Option<string>>>

  /** Where a decoded cursor leaves one provider's stream. */
  function LiveAt(cursors: CursorMap, provider: string): Live {
    if cursors.None? then At(None)
    else if provider in cursors.value then At(cursors.value[provider])
    else Done
  }

  function Calls(env: Env, cursors: CursorMap, names: seq<string>): seq<Call> {
    if names == [] then []
    else
      var n := |names| - 1;
      var live := LiveAt(cursors, names[n]);
      Calls(env, cursors, names[..n]) +
      if live.At? && env.setup(names[n]).Ready? then [Call(names[n], live.cursor)] else []
  }

  function SetupFailures(env: Env, cursors: CursorMap, names: seq<string>): set<string> {
    set p | p in names && LiveAt(cursors, p).At? && env.setup(p).SetupFails?
  }

  function PageLimit(limit: int): nat { Clamp(limit, 1, 500) }

  function Limits(env: Env, cursors: CursorMap, names: seq<string>, page: nat): seq<nat> {
    CallLimits(page, |Calls(env, cursors, names)|)
  }

  function PageItems(env: Env, cursors: CursorMap, names: seq<string>, page: nat): seq<Item> {
    Items(env.fetch, Calls(env, cursors, names), Limits(env, cursors, names, page))
  }

  function PageNext(env: Env, cursors: CursorMap, names: seq<string>, page: nat): Dict {
    Next(env.fetch, Calls(env, cursors, names), Limits(env, cursors, names, page))
  }

  function PageFailed(env: Env, cursors: CursorMap, names: seq<string>, page: nat): set<string> {
    SetupFailures(env, cursors, names) +
    FailedKeys(env.fetch, Calls(env, cursors, names), Limits(env, cursors, names, page))
  }

  /** One request of a run: the client's limit and what the providers do. */
  datatype Turn = Turn(limit: int, env: Env)

  /** One page of the listing. It raises when providers failed and nothing came. */
  function ListPage(cursor: Option<string>, turn: Turn): Result {
    var cursors, page := DecodeGlobal(cursor), PageLimit(turn.limit);
    var items := PageItems(turn.env, cursors, PROVIDERS, page);
    var failed := PageFailed(turn.env, cursors, PROVIDERS, page);
    if items == [] && failed != {} then Raised
    else Listed(items, EncodeGlobal(PageNext(turn.env, cursors, PROVIDERS, page)), failed)
  }

  // ---------- One provider on one decoded page ----------

  lemma {:induction false} CallsFacts(env: Env, cursors: CursorMap, names: seq<string>)
    requires NoRepeats(names)
    ensures DistinctKeys(Calls(env, cursors, names)) && |Calls(env, cursors, names)| <= |names|
    ensures forall c | c in Calls(env, cursors, names) ::
              c.key in names && env.setup(c.key).Ready? && LiveAt(cursors, c.key) == At(c.cursor)
    ensures forall p | p in names && env.setup(p).Ready? && LiveAt(cursors, p).At? ::
              Call(p, LiveAt(cursors, p).cursor) in Calls(env, cursors, names)
  {
    if names != [] {
      var n := |names| - 1;
      CallsFacts(env, cursors, names[..n]);
      assert names == names[..n] + [names[n]];
    }
  }

  /** The share a provider's call gets on a page, 0 when it is not called. */
  ghost function ShareOf(env: Env, cursors: CursorMap, names: seq<string>, page: nat, p: string): nat {
    var calls := Calls(env, cursors, names);
    if i :| 0 <= i < |calls| && calls[i].key == p then Share(page, |calls|, i) else 0
  }

  lemma {:induction false} ShareOfCall(env: Env, cursors: CursorMap, names: seq<string>, page: nat, i: nat)
    requires NoRepeats(names) && i < |Calls(env, cursors, names)|
    ensures ShareOf(env, cursors, names, page, Calls(env, cursors, names)[i].key)
         == Share(page, |Calls(env, cursors, names)|, i) == Limits(env, cursors, names, page)[i]
  {
    var calls := Calls(env, cursors, names);
    CallsFacts(env, cursors, names);
    var p := calls[i].key;
    var j :| 0 <= j < |calls| && calls[j].key == p && ShareOf(env, cursors, names, page, p) == Share(page, |calls|, j);
    assert i == j;
  }

  /** A page as one called provider sees it: it emits exactly what the provider
      answered, and the next dictionary resumes it exactly where that ended. */
  lemma {:induction false} PageOfProvider(env: Env, cursors: CursorMap, names: seq<string>, page: nat, p: string)
    requires NoRepeats(names) && p in names && env.setup(p).Ready? && LiveAt(cursors, p).At?
    ensures var call, share := Call(p, LiveAt(cursors, p).cursor), ShareOf(env, cursors, names, page, p);
            Of(p, PageItems(env, cursors, names, page)) == Got(env.fetch, call, share)
            && LiveAt(Some(ToMap(PageNext(env, cursors, names, page))), p) == Outcome(env.fetch, call, share)
  {
    var calls, limits := Calls(env, cursors, names), Limits(env, cursors, names, page);
    CallsFacts(env, cursors, names);
    var call := Call(p, LiveAt(cursors, p).cursor);
    var i :| 0 <= i < |calls| && calls[i] == call;
    ShareOfCall(env, cursors, names, page, i);
    ItemsOfCall(env.fetch, calls, limits, i);
    NextOfCall(env.fetch, calls, limits, i);
  }

  /** A provider that is through or cannot be called emits nothing and is not
      in the next dictionary. */
  lemma {:induction false} PageWithoutProvider(env: Env, cursors: CursorMap, names: seq<string>, page: nat, p: string)
    requires NoRepeats(names)
    requires LiveAt(cursors, p).Done? || !env.setup(p).Ready? || p !in names
    ensures Of(p, PageItems(env, cursors, names, page)) == []
    ensures LiveAt(Some(ToMap(PageNext(env, cursors, names, page))), p) == Done
  {
    var calls, limits := Calls(env, cursors, names), Limits(env, cursors, names, page);
    CallsFacts(env, cursors, names);
    NoItemsWithoutCall(env.fetch, calls, limits, p);
    NextNeedsCall(env.fetch, calls, limits, p);
  }

  lemma NextIsEncodable(env: Env, cursors: CursorMap, names: seq<string>, page: nat)
    requires NoRepeats(names)
    ensures Distinct(PageNext(env, cursors, names, page))
    ensures forall m | m in PageNext(env, cursors, names, page) :: m.key in names
  {
    var calls, limits := Calls(env, cursors, names), Limits(env, cursors, names, page);
    CallsFacts(env, cursors, names);
    NextIsDistinct(env.fetch, calls, limits);
    forall m | m in PageNext(env, cursors, names, page) ensures m.key in names {
      NextHas(env.fetch, calls, limits, m);
      var i :| 0 <= i < |calls| && calls[i].key == m.key;
      assert calls[i] in calls;
    }
  }

  // ---------- Who failed ----------

  /** The provider is live, ready, and gets a share of the page. */
  ghost predicate Called(env: Env, cursors: CursorMap, names: seq<string>, page: nat, p: string) {
    p in names && LiveAt(cursors, p).At? && env.setup(p).Ready? && ShareOf(env, cursors, names, page, p) > 0
  }

  /** What its call is answered. */
  ghost function AnswerTo(env: Env, cursors: CursorMap, names: seq<string>, page: nat, p: string): Fetch
    requires LiveAt(cursors, p).At?
  {
    env.fetch(p, LiveAt(cursors, p).cursor, ShareOf(env, cursors, names, page, p))
  }

  /** Its set-up fails, or its call does. */
  ghost predicate Faulty(env: Env, cursors: CursorMap, names: seq<string>, page: nat, p: string) {
    || (p in names && LiveAt(cursors, p).At? && env.setup(p).SetupFails?)
    || (Called(env, cursors, names, page, p) && AnswerTo(env, cursors, names, page, p).Failed?)
  }

  /** The i-th call of a page, seen as a provider that is called. */
  lemma {:induction false} CallIsMade(env: Env, cursors: CursorMap, names: seq<string>, page: nat, i: nat)
    requires NoRepeats(names) && i < |Calls(env, cursors, names)|
    ensures var call, limit := Calls(env, cursors, names)[i], Limits(env, cursors, names, page)[i];
            LiveAt(cursors, call.key) == At(call.cursor)
            && (limit > 0 <==> Called(env, cursors, names, page, call.key))
            && AnswerTo(env, cursors, names, page, call.key) == env.fetch(call.key, call.cursor, limit)
  {
    CallsFacts(env, cursors, names);
    assert Calls(env, cursors, names)[i] in Calls(env, cursors, names);
    ShareOfCall(env, cursors, names, page, i);
  }

  lemma {:induction false} CalledHasCall(env: Env, cursors: CursorMap, names: seq<string>, page: nat, p: string)
    requires NoRepeats(names) && Called(env, cursors, names, page, p)
    ensures exists i :: 0 <= i < |Calls(env, cursors, names)| && Calls(env, cursors, names)[i].key == p
  {
    CallsFacts(env, cursors, names);
    assert Call(p, LiveAt(cursors, p).cursor) in Calls(env, cursors, names);
  }

  lemma {:induction false} FailedCallIff(env: Env, cursors: CursorMap, names: seq<string>, page: nat, p: string)
    requires NoRepeats(names)
    ensures p in FailedKeys(env.fetch, Calls(env, cursors, names), Limits(env, cursors, names, page))
       <==> Called(env, cursors, names, page, p) && AnswerTo(env, cursors, names, page, p).Failed?
  {
    var calls, limits := Calls(env, cursors, names), Limits(env, cursors, names, page);
    FailedKeysHas(env.fetch, calls, limits, p);
    if i :| 0 <= i < |calls| && calls[i].key == p && limits[i] > 0
            && env.fetch(calls[i].key, calls[i].cursor, limits[i]).Failed? {
      CallIsMade(env, cursors, names, page, i);
    }
    if Called(env, cursors, names, page, p) {
      CalledHasCall(env, cursors, names, page, p);
      var i :| 0 <= i < |calls| && calls[i].key == p;
      CallIsMade(env, cursors, names, page, i);
    }
  }

  /** A page reports exactly the providers that are faulty. */
  lemma {:induction false} FailedIff(env: Env, cursors: CursorMap, names: seq<string>, page: nat, p: string)
    requires NoRepeats(names)
    ensures p in PageFailed(env, cursors, names, page) <==> Faulty(env, cursors, names, page, p)
  {
    FailedCallIff(env, cursors, names, page, p);
  }

  /** No provider that was called had a SIM to give. */
  ghost predicate NothingCame(env: Env, cursors: CursorMap, names: seq<string>, page: nat) {
    forall p | Called(env, cursors, names, page, p) ::
      var f := AnswerTo(env, cursors, names, page, p); f.Page? ==> f.items == []
  }

  lemma {:induction false} SomeItemHasCall(fetch: Fetcher, calls: seq<Call>, limits: seq<nat>)
    requires |calls| == |limits| && Items(fetch, calls, limits) != []
    ensures exists i :: 0 <= i < |calls| && Got(fetch, calls[i], limits[i]) != []
  {
    var n := |calls| - 1;
    if Got(fetch, calls[n], limits[n]) == [] {
      SomeItemHasCall(fetch, calls[..n], limits[..n]);
      var i :| 0 <= i < n && Got(fetch, calls[..n][i], limits[..n][i]) != [];
      assert Got(fetch, calls[i], limits[i]) != [];
    }
  }

  lemma {:induction false} NoItemsMeansNothingCame(env: Env, cursors: CursorMap, names: seq<string>, page: nat)
    requires NoRepeats(names) && PageItems(env, cursors, names, page) == []
    ensures NothingCame(env, cursors, names, page)
  {
    forall p | Called(env, cursors, names, page, p)
      ensures var f := AnswerTo(env, cursors, names, page, p); f.Page? ==> f.items == []
    {
      PageOfProvider(env, cursors, names, page, p);
      MadeCall(env.fetch, Call(p, LiveAt(cursors, p).cursor), ShareOf(env, cursors, names, page, p));
    }
  }

  lemma {:induction false} SomeItemCame(env: Env, cursors: CursorMap, names: seq<string>, page: nat)
    requires NoRepeats(names) && PageItems(env, cursors, names, page) != []
    ensures !NothingCame(env, cursors, names, page)
  {
    var calls, limits := Calls(env, cursors, names), Limits(env, cursors, names, page);
    SomeItemHasCall(env.fetch, calls, limits);
    var i :| 0 <= i < |calls| && Got(env.fetch, calls[i], limits[i]) != [];
    CallIsMade(env, cursors, names, page, i);
    assert Called(env, cursors, names, page, calls[i].key);
  }

  /** A page of the listing raises exactly if no SIM came and somebody is faulty;
      otherwise it reports exactly the faulty providers. */
  lemma {:induction false} PageRaisesIff(cursor: Option<string>, turn: Turn)
    ensures var cursors, page := DecodeGlobal(cursor), PageLimit(turn.limit);
            (ListPage(cursor, turn).Raised? <==>
               NothingCame(turn.env, cursors, PROVIDERS, page)
               && exists p :: IsProvider(p) && Faulty(turn.env, cursors, PROVIDERS, page, p))
            && (ListPage(cursor, turn).Listed? ==>
                  forall p :: p in ListPage(cursor, turn).failed <==> Faulty(turn.env, cursors, PROVIDERS, page, p))
  {
    var cursors, page := DecodeGlobal(cursor), PageLimit(turn.limit);
    var failed := PageFailed(turn.env, cursors, PROVIDERS, page);
    ProvidersDiffer();
    if PageItems(turn.env, cursors, PROVIDERS, page) == [] {
      NoItemsMeansNothingCame(turn.env, cursors, PROVIDERS, page);
    } else {
      SomeItemCame(turn.env, cursors, PROVIDERS, page);
    }
    forall p ensures p in failed <==> Faulty(turn.env, cursors, PROVIDERS, page, p) {
      FailedIff(turn.env, cursors, PROVIDERS, page, p);
    }
    if failed != {} {
      var p :| p in failed;
      assert IsProvider(p) && Faulty(turn.env, cursors, PROVIDERS, page, p);
    }
  }

  // ---------- Through the opaque cursor ----------

  lemma ProvidersDiffer()
    ensures NoRepeats(PROVIDERS)
  {
    assert |PROVIDERS[0]| == 4 && |PROVIDERS[1]| == 5 && |PROVIDERS[2]| == 7;
  }

  /** Where a cursor, as the client holds it, leaves one provider's stream. */
  function LiveIn(p: string): Option<string> -> Live {
    cursor => LiveAt(DecodeGlobal(cursor), p)
  }

  /** The next page's cursor, decoded again, leaves every provider where the
      page's dictionary did. */
  lemma NextCursorDecodes(cursor: Option<string>, turn: Turn, p: string)
    requires ListPage(cursor, turn).Listed?
    ensures LiveNext(LiveIn(p), ListPage(cursor, turn).next)
         == LiveAt(Some(ToMap(PageNext(turn.env, DecodeGlobal(cursor), PROVIDERS, PageLimit(turn.limit)))), p)
  {
    var next := PageNext(turn.env, DecodeGlobal(cursor), PROVIDERS, PageLimit(turn.limit));
    ProvidersDiffer();
    NextIsEncodable(turn.env, DecodeGlobal(cursor), PROVIDERS, PageLimit(turn.limit));
    GlobalRoundTrip(next);
  }

  /** p is ready and pages through s on this turn, for every share it may get. */
  ghost predicate Serves(turn: Turn, p: string, s: Stream, sizes: nat -> bool) {
    && turn.env.setup(p).Ready?
    && (forall c, n: nat | n > 0 && sizes(n) && OnTrack(s, At(c)) :: Meets(s, c, n, turn.env.fetch(p, c, n)))
    && (forall cursors, n | n == ShareOf(turn.env, cursors, PROVIDERS, PageLimit(turn.limit), p) && n > 0 :: sizes(n))
  }

  lemma {:induction false} DecodedPageExtends(turn: Turn, cursors: CursorMap, p: string, s: Stream,
                                              sizes: nat -> bool, got: seq<Sim>)
    requires IsProvider(p) && Serves(turn, p, s, sizes) && ReadUpTo(s, LiveAt(cursors, p), got)
    ensures var page := PageLimit(turn.limit);
            ReadUpTo(s, LiveAt(Some(ToMap(PageNext(turn.env, cursors, PROVIDERS, page))), p),
                     got + Of(p, PageItems(turn.env, cursors, PROVIDERS, page)))
  {
    var live, page := LiveAt(cursors, p), PageLimit(turn.limit);
    ProvidersDiffer();
    assert got + [] == got;
    if live.At? {
      PageOfProvider(turn.env, cursors, PROVIDERS, page, p);
      var share := ShareOf(turn.env, cursors, PROVIDERS, page, p);
      if share > 0 {
        PageExtends(s, live.cursor, share, turn.env.fetch(p, live.cursor, share), got);
      }
    } else {
      PageWithoutProvider(turn.env, cursors, PROVIDERS, page, p);
    }
  }

  lemma ServesExtends(turn: Turn, p: string, s: Stream, sizes: nat -> bool)
    requires IsProvider(p) && Serves(turn, p, s, sizes)
    ensures Extends(ListPage, turn, LiveIn(p), p, s)
  {
    forall c, got | ReadUpTo(s, LiveIn(p)(c), got) && ListPage(c, turn).Listed?
      ensures ReadUpTo(s, LiveNext(LiveIn(p), ListPage(c, turn).next), got + Of(p, ListPage(c, turn).items))
    {
      DecodedPageExtends(turn, DecodeGlobal(c), p, s, sizes, got);
      NextCursorDecodes(c, turn, p);
    }
  }

  /** Coverage. Following the cursor from the first page to the end emits the
      whole list of every provider that keeps answering, exactly once and in
      order; a run that is aborted or unfinished has emitted a prefix of it. */
  lemma {:induction false} RunCoversProvider(turns: seq<Turn>, p: string, s: Stream, sizes: nat -> bool)
    requires IsProvider(p) && s.pos(None) == 0
    requires forall t | t in turns :: Serves(t, p, s, sizes)
    ensures var j := Follow(ListPage, None, turns);
            if j.Ended? then Of(p, j.items) == s.items else Of(p, j.items) <= s.items
  {
    forall t | t in turns ensures Extends(ListPage, t, LiveIn(p), p, s) { ServesExtends(t, p, s, sizes); }
    RunReads(ListPage, None, turns, LiveIn(p), p, s, []);
    var items := Follow(ListPage, None, turns).items;
    assert [] + Of(p, items) == Of(p, items);
  }

  // ---------- Aborted runs ----------

  lemma EveryoneGetsShare(env: Env, cursors: CursorMap, page: nat, p: string)
    requires page >= 3 && IsProvider(p) && env.setup(p).Ready? && LiveAt(cursors, p).At?
    ensures ShareOf(env, cursors, PROVIDERS, page, p) > 0
  {
    var calls := Calls(env, cursors, PROVIDERS);
    ProvidersDiffer();
    CallsFacts(env, cursors, PROVIDERS);
    var i :| 0 <= i < |calls| && calls[i] == Call(p, LiveAt(cursors, p).cursor);
    ShareOfCall(env, cursors, PROVIDERS, page, i);
    ZeroShare(page, |calls|, i);
  }

  /** When everybody has a share, a page only raises for the failures of others
      once p's own stream is exhausted. */
  lemma RaiseMeansExhausted(c: Option<string>, turn: Turn, p: string, s: Stream, sizes: nat -> bool, got: seq<Sim>)
    requires IsProvider(p) && Serves(turn, p, s, sizes) && PageLimit(turn.limit) >= 3
    requires ReadUpTo(s, LiveIn(p)(c), got) && ListPage(c, turn).Raised?
    ensures got == s.items
  {
    var cursors, page := DecodeGlobal(c), PageLimit(turn.limit);
    var live := LiveAt(cursors, p);
    if live.At? {
      var share := ShareOf(turn.env, cursors, PROVIDERS, page, p);
      EveryoneGetsShare(turn.env, cursors, page, p);
      EmptyPage(turn.env, cursors, page, p);
      assert Meets(s, live.cursor, share, turn.env.fetch(p, live.cursor, share));
    }
  }

  /** On a page without items, a call that was made and answered had none. */
  lemma EmptyPage(env: Env, cursors: CursorMap, page: nat, p: string)
    requires IsProvider(p) && env.setup(p).Ready? && LiveAt(cursors, p).At?
    requires ShareOf(env, cursors, PROVIDERS, page, p) > 0 && PageItems(env, cursors, PROVIDERS, page) == []
    ensures var f := env.fetch(p, LiveAt(cursors, p).cursor, ShareOf(env, cursors, PROVIDERS, page, p));
            f.Page? ==> f.items == []
  {
    ProvidersDiffer();
    PageOfProvider(env, cursors, PROVIDERS, page, p);
    MadeCall(env.fetch, Call(p, LiveAt(cursors, p).cursor), ShareOf(env, cursors, PROVIDERS, page, p));
  }

  /** With limits of at least three, an aborted run has emitted the whole list
      too, whatever fails. */
  lemma {:induction false} FinishedRunCoversProvider(turns: seq<Turn>, p: string, s: Stream, sizes: nat -> bool)
    requires IsProvider(p) && s.pos(None) == 0 && !Follow(ListPage, None, turns).Unfinished?
    requires forall t | t in turns :: Serves(t, p, s, sizes) && PageLimit(t.limit) >= 3
    ensures Of(p, Follow(ListPage, None, turns).items) == s.items
  {
    forall t | t in turns ensures Extends(ListPage, t, LiveIn(p), p, s) && RaisesAtEnd(ListPage, t, LiveIn(p), s) {
      ServesExtends(t, p, s, sizes);
      forall c, got | ReadUpTo(s, LiveIn(p)(c), got) && ListPage(c, t).Raised? ensures got == s.items {
        RaiseMeansExhausted(c, t, p, s, sizes, got);
      }
    }
    FinishedRunReads(ListPage, None, turns, LiveIn(p), p, s, []);
    var items := Follow(ListPage, None, turns).items;
    assert [] + Of(p, items) == Of(p, items);
  }

  // ---------- Failing providers ----------

  lemma {:induction false} DoneIsFinal(c: Option<string>, turn: Turn, p: string)
    requires LiveIn(p)(c) == Done && ListPage(c, turn).Listed?
    ensures Of(p, ListPage(c, turn).items) == [] && LiveNext(LiveIn(p), ListPage(c, turn).next) == Done
  {
    ProvidersDiffer();
    PageWithoutProvider(turn.env, DecodeGlobal(c), PROVIDERS, PageLimit(turn.limit), p);
    NextCursorDecodes(c, turn, p);
  }

  /** A provider that is through emits nothing in the rest of the run. */
  lemma {:induction false} DoneStaysDone(cursor: Option<string>, turns: seq<Turn>, p: string)
    requires LiveIn(p)(cursor) == Done
    ensures Of(p, Follow(ListPage, cursor, turns).items) == []
  {
    forall t, c | t in turns && LiveIn(p)(c) == Done && ListPage(c, t).Listed?
      ensures Of(p, ListPage(c, t).items) == [] && LiveNext(LiveIn(p), ListPage(c, t).next) == Done
    {
      DoneIsFinal(c, t, p);
    }
    DoneEmitsNothing(ListPage, cursor, turns, LiveIn(p), p);
  }

  /** p cannot be set up, or its call fails. */
  ghost predicate Fails(cursors: CursorMap, turn: Turn, p: string) {
    var share := ShareOf(turn.env, cursors, PROVIDERS, PageLimit(turn.limit), p);
    !turn.env.setup(p).Ready?
    || (LiveAt(cursors, p).At? && share > 0 && turn.env.fetch(p, LiveAt(cursors, p).cursor, share).Failed?)
  }

  lemma {:induction false} FailureEndsStream(c: Option<string>, turn: Turn, p: string)
    requires IsProvider(p) && Fails(DecodeGlobal(c), turn, p) && ListPage(c, turn).Listed?
    ensures Of(p, ListPage(c, turn).items) == [] && LiveNext(LiveIn(p), ListPage(c, turn).next) == Done
  {
    ProvidersDiffer();
    var cursors, page := DecodeGlobal(c), PageLimit(turn.limit);
    if turn.env.setup(p).Ready? {
      PageOfProvider(turn.env, cursors, PROVIDERS, page, p);
    } else {
      PageWithoutProvider(turn.env, cursors, PROVIDERS, page, p);
    }
    NextCursorDecodes(c, turn, p);
  }

  /** A provider that fails on one page is dropped for good: that page and the
      rest of the run emit nothing of it, even if it recovers. */
  lemma {:induction false} FailureDropsProvider(cursor: Option<string>, turns: seq<Turn>, p: string)
    requires turns != [] && IsProvider(p) && Fails(DecodeGlobal(cursor), turns[0], p)
    ensures Of(p, Follow(ListPage, cursor, turns).items) == []
  {
    var r := ListPage(cursor, turns[0]);
    if r.Listed? {
      FailureEndsStream(cursor, turns[0], p);
      if r.next.Some? { DoneStaysDone(r.next, turns[1..], p); }
    }
    NothingOnFirstPage(ListPage, cursor, turns, p);
  }

  /** So it is cut off exactly where it was when it failed, whatever it does
      later: it is delivered whole exactly if it was exhausted by then. */
  lemma {:induction false} FailureCutsProvider(turns: seq<Turn>, k: nat, p: string, s: Stream, sizes: nat -> bool)
    requires k < |turns| && IsProvider(p) && s.pos(None) == 0
    requires forall i | 0 <= i < k :: Serves(turns[i], p, s, sizes)
    requires var sent := SentAt(ListPage, None, turns, k);
             sent.Sent? && LiveIn(p)(sent.cursor).At? && Fails(DecodeGlobal(sent.cursor), turns[k], p)
    ensures var pos := s.pos(LiveIn(p)(SentAt(ListPage, None, turns, k).cursor).cursor);
            0 <= pos <= |s.items| && Of(p, Follow(ListPage, None, turns).items) == s.items[..pos]
            && (Of(p, Follow(ListPage, None, turns).items) == s.items <==> pos == |s.items|)
  {
    var c := SentAt(ListPage, None, turns, k).cursor;
    FailureDropsProvider(c, turns[k..], p);
    forall i | 0 <= i < k ensures Extends(ListPage, turns[i], LiveIn(p), p, s) { ServesExtends(turns[i], p, s, sizes); }
    RunReadsUpTo(ListPage, None, turns, k, LiveIn(p), p, s, []);
    var items := Follow(ListPage, None, turns).items;
    assert [] + Of(p, items) == Of(p, items);
  }

  // ---------- Termination and page size ----------

  /** Every call of a page fails or gets on in its stream. */
  ghost predicate CallsMoveOn(env: Env, page: nat, streams: string -> Stream, names: seq<string>) {
    forall p, cursors | p in names && LiveAt(cursors, p).At? && OnTrack(streams(p), LiveAt(cursors, p)) ::
      var c, n := LiveAt(cursors, p).cursor, ShareOf(env, cursors, names, page, p);
      n > 0 ==> MovesOn(streams(p), c, env.fetch(p, c, n))
  }

  ghost predicate Behaves(turn: Turn, streams: string -> Stream) {
    CallsMoveOn(turn.env, PageLimit(turn.limit), streams, PROVIDERS)
  }

  ghost predicate AllOnTrack(cursors: CursorMap, streams: string -> Stream, names: seq<string>) {
    forall p | p in names :: OnTrack(streams(p), LiveAt(cursors, p))
  }

  /** Pages still to come, summed over the providers. */
  ghost function Work(cursors: CursorMap, streams: string -> Stream, names: seq<string>): nat
    requires AllOnTrack(cursors, streams, names)
  {
    if names == [] then 0
    else
      var n := |names| - 1;
      Work(cursors, streams, names[..n]) + Remaining(streams(names[n]), LiveAt(cursors, names[n]))
  }

  /** No provider's frontier moves back, and that of a call with a share moves on. */
  lemma ProviderShrinks(env: Env, page: nat, cursors: CursorMap, streams: string -> Stream, names: seq<string>,
                        p: string)
    requires CallsMoveOn(env, page, streams, names) && NoRepeats(names)
    requires p in names && OnTrack(streams(p), LiveAt(cursors, p))
    ensures var now, later := LiveAt(cursors, p), LiveAt(Some(ToMap(PageNext(env, cursors, names, page))), p);
            OnTrack(streams(p), later)
            && Remaining(streams(p), later) <= Remaining(streams(p), now)
            && (env.setup(p).Ready? && now.At? && ShareOf(env, cursors, names, page, p) > 0 ==>
                  Remaining(streams(p), later) < Remaining(streams(p), now))
  {
    var live := LiveAt(cursors, p);
    if live.Done? || !env.setup(p).Ready? {
      PageWithoutProvider(env, cursors, names, page, p);
    } else {
      PageOfProvider(env, cursors, names, page, p);
      var share := ShareOf(env, cursors, names, page, p);
      if share > 0 { assert MovesOn(streams(p), live.cursor, env.fetch(p, live.cursor, share)); }
    }
  }

  lemma {:induction false} WorkCompares(before: CursorMap, after: CursorMap, streams: string -> Stream,
                                        names: seq<string>)
    requires AllOnTrack(before, streams, names) && AllOnTrack(after, streams, names)
    requires forall p | p in names ::
               Remaining(streams(p), LiveAt(after, p)) <= Remaining(streams(p), LiveAt(before, p))
    ensures Work(after, streams, names) <= Work(before, streams, names)
    ensures (exists p :: p in names
                         && Remaining(streams(p), LiveAt(after, p)) < Remaining(streams(p), LiveAt(before, p)))
            ==> Work(after, streams, names) < Work(before, streams, names)
    ensures (exists p :: p in names && LiveAt(after, p).At?) ==> Work(after, streams, names) > 0
  {
    if names != [] {
      var n := |names| - 1;
      WorkCompares(before, after, streams, names[..n]);
      assert names == names[..n] + [names[n]];
    }
  }

  /** A page with a nonempty dictionary gave some provider a share. */
  lemma SomeoneIsCalled(env: Env, cursors: CursorMap, names: seq<string>, page: nat)
    requires NoRepeats(names) && page > 0 && PageNext(env, cursors, names, page) != []
    ensures exists p :: p in names && env.setup(p).Ready? && LiveAt(cursors, p).At?
                        && ShareOf(env, cursors, names, page, p) > 0
  {
    var calls := Calls(env, cursors, names);
    CallsFacts(env, cursors, names);
    assert calls != [];
    var p := calls[0].key;
    assert calls[0] in calls;
    ZeroShare(page, |calls|, 0);
    var j :| 0 <= j < |calls| && calls[j].key == p && ShareOf(env, cursors, names, page, p) == Share(page, |calls|, j);
    assert j == 0;
    assert CallLimits(page, |calls|)[0] == Share(page, |calls|, 0);
  }

  lemma {:induction false} PageLowersWork(env: Env, page: nat, cursors: CursorMap, streams: string -> Stream,
                                          names: seq<string>)
    requires NoRepeats(names) && page > 0 && CallsMoveOn(env, page, streams, names)
    requires AllOnTrack(cursors, streams, names) && PageNext(env, cursors, names, page) != []
    ensures var after := Some(ToMap(PageNext(env, cursors, names, page)));
            AllOnTrack(after, streams, names)
            && 0 < Work(after, streams, names) < Work(cursors, streams, names)
  {
    var next := PageNext(env, cursors, names, page);
    forall p | p in names
      ensures OnTrack(streams(p), LiveAt(Some(ToMap(next)), p))
      ensures Remaining(streams(p), LiveAt(Some(ToMap(next)), p)) <= Remaining(streams(p), LiveAt(cursors, p))
    {
      ProviderShrinks(env, page, cursors, streams, names, p);
    }
    SomeoneIsCalled(env, cursors, names, page);
    var p :| p in names && env.setup(p).Ready? && LiveAt(cursors, p).At? && ShareOf(env, cursors, names, page, p) > 0;
    ProviderShrinks(env, page, cursors, streams, names, p);
    NextIsEncodable(env, cursors, names, page);
    ToMapHas(next, next[0].key, next[0].value);
    assert next[0] in next;
    WorkCompares(cursors, Some(ToMap(next)), streams, names);
  }

  /** The work a client's cursor leaves, negative for a cursor off track. */
  ghost function WorkIn(streams: string -> Stream): Option<string> -> int {
    cursor =>
      var cursors := DecodeGlobal(cursor);
      if AllOnTrack(cursors, streams, PROVIDERS) then Work(cursors, streams, PROVIDERS) else -1
  }

  lemma StepLowersWork(c: Option<string>, turn: Turn, streams: string -> Stream)
    requires Behaves(turn, streams) && WorkIn(streams)(c) > 0
    requires ListPage(c, turn).Listed? && ListPage(c, turn).next.Some?
    ensures 0 < WorkIn(streams)(ListPage(c, turn).next) < WorkIn(streams)(c)
  {
    var cursors, page := DecodeGlobal(c), PageLimit(turn.limit);
    var next := PageNext(turn.env, cursors, PROVIDERS, page);
    ProvidersDiffer();
    PageLowersWork(turn.env, page, cursors, streams, PROVIDERS);
    NextIsEncodable(turn.env, cursors, PROVIDERS, page);
    GlobalRoundTrip(next);
  }

  /** The sum of (list length + 1). */
  ghost function Total(streams: string -> Stream, names: seq<string>): nat {
    if names == [] then 0 else Total(streams, names[..|names| - 1]) + |streams(names[|names| - 1]).items| + 1
  }

  lemma {:induction false} WorkAtStart(streams: string -> Stream, names: seq<string>)
    requires forall p | p in names :: streams(p).pos(None) == 0
    ensures AllOnTrack(None, streams, names) && Work(None, streams, names) == Total(streams, names)
  {
    if names != [] { WorkAtStart(streams, names[..|names| - 1]); }
  }

  lemma TotalOfThree(streams: string -> Stream, a: string, b: string, c: string)
    ensures Total(streams, [a, b, c]) == |streams(a).items| + |streams(b).items| + |streams(c).items| + 3
  {
    assert [a, b, c][..2] == [a, b] && [a, b][..1] == [a] && [a][..0] == [];
    assert Total(streams, [a]) == |streams(a).items| + 1;
    assert Total(streams, [a, b]) == Total(streams, [a]) + |streams(b).items| + 1;
  }

  /** Termination. A run in which every call fails or gets on in its list is over
      after at most the sum of (list length + 1) pages. */
  lemma {:induction false} RunTerminates(turns: seq<Turn>, streams: string -> Stream)
    requires forall t | t in turns :: Behaves(t, streams)
    requires forall p | p in PROVIDERS :: streams(p).pos(None) == 0
    requires |turns| >= |streams("kite").items| + |streams("tele2").items| + |streams("moabits").items| + 3
    ensures !Follow(ListPage, None, turns).Unfinished?
  {
    WorkAtStart(streams, PROVIDERS);
    TotalOfThree(streams, "kite", "tele2", "moabits");
    forall t, c | t in turns && WorkIn(streams)(c) > 0 && ListPage(c, t).Listed? && ListPage(c, t).next.Some?
      ensures 0 < WorkIn(streams)(ListPage(c, t).next) < WorkIn(streams)(c)
    {
      StepLowersWork(c, t, streams);
    }
    RunIsBounded(ListPage, None, turns, WorkIn(streams));
  }

  /** A page holds at most the clamped limit, when each answer keeps to its share. */
  lemma PageFitsLimit(cursor: Option<string>, turn: Turn)
    requires forall p, c, n: nat :: turn.env.fetch(p, c, n).Page? ==> |turn.env.fetch(p, c, n).items| <= Max(n, 1)
    ensures var r := ListPage(cursor, turn); r.Listed? ==> |r.items| <= Clamp(turn.limit, 1, 500)
  {
    DecodedPageFits(turn.env, DecodeGlobal(cursor), PROVIDERS, PageLimit(turn.limit));
  }

  lemma DecodedPageFits(env: Env, cursors: CursorMap, names: seq<string>, page: nat)
    requires forall p, c, n: nat :: env.fetch(p, c, n).Page? ==> |env.fetch(p, c, n).items| <= Max(n, 1)
    ensures |PageItems(env, cursors, names, page)| <= page
  {
    var calls, limits := Calls(env, cursors, names), Limits(env, cursors, names, page);
    forall i | 0 <= i < |calls| ensures |Got(env.fetch, calls[i], limits[i])| <= limits[i] {
      if limits[i] > 0 {
        assert env.fetch(calls[i].key, calls[i].cursor, limits[i]).Page? ==>
                 |env.fetch(calls[i].key, calls[i].cursor, limits[i]).items| <= Max(limits[i], 1);
      }
    }
    ItemsFitShares(env.fetch, calls, limits);
    assert |PageItems(env, cursors, names, page)| <= Sum(limits);
    if calls == [] { assert limits == []; assert Sum(limits) == 0; }
    SharesAreFair(page, |calls|);
  }

  // ---------- The listing as it runs ----------

  /** First loop: decide whom to call. */
  method CollectCalls(cursors: CursorMap, env: Env, names: seq<string>) returns (calls: seq<Call>, failed: set<string>)
    ensures calls == Calls(env, cursors, names) && failed == SetupFailures(env, cursors, names)
  {
    calls, failed := [], {};
    for k := 0 to |names|
      invariant calls == Calls(env, cursors, names[..k]) && failed == SetupFailures(env, cursors, names[..k])
    {
      var name := names[k];
      assert names[..k + 1][..k] == names[..k];
      assert names[..k + 1] == names[..k] + [name];
      if cursors.Some? && name !in cursors.value { continue; }
      var providerCursor := if cursors.None? then None else cursors.value[name];
      match env.setup(name) {
        case SetupFails => failed := failed + {name};
        case NotListable =>
        case Ready => calls := calls + [Call(name, providerCursor)];
      }
    }
    assert names[..|names|] == names;
  }

  /** The calls that got a share of the page, and their shares. */
  function Active(calls: seq<Call>, limits: seq<nat>): (r: (seq<Call>, seq<nat>))
    requires |calls| == |limits|
    ensures |r.0| == |r.1| && forall n | n in r.1 :: n > 0
  {
    if calls == [] then ([], [])
    else
      var n := |calls| - 1;
      var (c, l) := Active(calls[..n], limits[..n]);
      if limits[n] > 0 then (c + [calls[n]], l + [limits[n]]) else (c, l)
  }

  /** Second loop: set the calls without a share aside, cursor included. */
  method SplitCalls(calls: seq<Call>, limits: seq<nat>) returns (carried: Dict, active: seq<Call>, shares: seq<nat>)
    requires |calls| == |limits|
    ensures carried == Carried(calls, limits) && (active, shares) == Active(calls, limits)
  {
    carried, active, shares := [], [], [];
    for k := 0 to |calls|
      invariant carried == Carried(calls[..k], limits[..k]) && (active, shares) == Active(calls[..k], limits[..k])
    {
      assert calls[..k + 1][..k] == calls[..k] && limits[..k + 1][..k] == limits[..k];
      if limits[k] <= 0 {
        carried := carried + [Member(calls[k].key, calls[k].cursor)];
      } else {
        active, shares := active + [calls[k]], shares + [limits[k]];
      }
    }
    assert calls[..|calls|] == calls && limits[..|limits|] == limits;
  }

  /** Third loop: merge the answers. */
  method MergeResults(fetch: Fetcher, active: seq<Call>, shares: seq<nat>)
    returns (items: seq<Item>, advanced: Dict, failed: set<string>)
    requires |active| == |shares| && forall n | n in shares :: n > 0
    ensures items == Items(fetch, active, shares) && advanced == Advanced(fetch, active, shares)
    ensures failed == FailedKeys(fetch, active, shares)
  {
    items, advanced, failed := [], [], {};
    for k := 0 to |active|
      invariant items == Items(fetch, active[..k], shares[..k])
      invariant advanced == Advanced(fetch, active[..k], shares[..k])
      invariant failed == FailedKeys(fetch, active[..k], shares[..k])
    {
      assert active[..k + 1][..k] == active[..k] && shares[..k + 1][..k] == shares[..k];
      assert shares[k] in shares && Tag(active[k].key, []) == [];
      match fetch(active[k].key, active[k].cursor, shares[k]) {
        case Failed => failed := failed + {active[k].key};
        case Page(sims, c) =>
          items := items + Tag(active[k].key, sims);
          if c.Some? { advanced := advanced + [Member(active[k].key, c)]; }
      }
    }
    assert active[..|active|] == active && shares[..|shares|] == shares;
  }

  /** Leaving out the calls without a share changes no result. */
  lemma {:induction false} ActiveAgrees(fetch: Fetcher, calls: seq<Call>, limits: seq<nat>)
    requires |calls| == |limits|
    ensures var (c, l) := Active(calls, limits);
            Items(fetch, c, l) == Items(fetch, calls, limits)
            && Advanced(fetch, c, l) == Advanced(fetch, calls, limits)
            && FailedKeys(fetch, c, l) == FailedKeys(fetch, calls, limits)
  {
    if calls != [] {
      var n := |calls| - 1;
      ActiveAgrees(fetch, calls[..n], limits[..n]);
      var (c, l) := Active(calls[..n], limits[..n]);
      assert (c + [calls[n]])[..|c|] == c && (l + [limits[n]])[..|l|] == l;
      assert Tag(calls[n].key, []) == [];
    }
  }

  /** The second loop and the third. */
  method MakeCalls(fetch: Fetcher, calls: seq<Call>, limits: seq<nat>)
    returns (items: seq<Item>, next: Dict, failed: set<string>)
    requires |calls| == |limits|
    ensures items == Items(fetch, calls, limits) && next == Next(fetch, calls, limits)
    ensures failed == FailedKeys(fetch, calls, limits)
  {
    var carried, active, shares := SplitCalls(calls, limits);
    ActiveAgrees(fetch, calls, limits);
    var advanced;
    items, advanced, failed := MergeResults(fetch, active, shares);
    next := carried + advanced;
  }

  method ListViaRoutingIndex(cursor: Option<string>, limit: int, env: Env) returns (r: Result)
    ensures r == ListPage(cursor, Turn(limit, env))
  {
    var calls, setupFailed := CollectCalls(DecodeGlobal(cursor), env, PROVIDERS);
    var items, next, callFailed := MakeCalls(env.fetch, calls, CallLimits(PageLimit(limit), |calls|));
    var failed := setupFailed + callFailed;
    if items == [] && failed != {} { return Raised; }
    return Listed(items, EncodeGlobal(next), failed);
  }
}
