/** The admin listing over the three real adapters: which credentials are always
    read whole? */
module RealAdmin {
  import opened Option
  import opened Cursors
  import opened Paging
  import opened FanOut
  import opened Runs
  import opened Unique
  import opened Adapters
  import opened RealListing
  import opened FilteredPages
  import Listing
  import opened AdminListing

  /** An active credential: its key in the cursor, and its provider. */
  datatype Credential = Credential(key: string, provider: string)

  /** The request's filters; `global` if it names no provider, so that the
      adapters' bootstrap filters fill in what is missing. */
  datatype Request = Request(filters: Filters, status: bool, global: bool)

  function Keys(creds: seq<Credential>): seq<string> {
    seq(|creds|, i requires 0 <= i < |creds| => creds[i].key)
  }

  predicate ValidRequest(creds: seq<Credential>, q: Request) {
    && NoRepeats(Keys(creds)) && DatedFilters(q.filters)
    && forall i | 0 <= i < |creds| :: IsProvider(creds[i].provider)
  }

  /** The filters in force, with the start of the bootstrap window at the time. */
  function Effective(q: Request, start: string): Filters {
    if q.global && q.filters.since.None? then q.filters.(since := Some(start)) else q.filters
  }

  predicate Accepted(cred: Credential, q: Request) {
    Takes(cred.provider, q.filters, q.status) || (q.global && cred.provider == "tele2")
  }

  predicate DatedStart(start: string) { start != "" && NoBar(start) }

  lemma EffectiveIsDated(q: Request, start: string)
    requires DatedFilters(q.filters) && DatedStart(start)
    ensures DatedFilters(Effective(q, start))
  {
  }

  lemma AcceptedIff(cred: Credential, q: Request, start: string)
    requires IsProvider(cred.provider)
    ensures Takes(cred.provider, Effective(q, start), q.status) <==> Accepted(cred, q)
  {
    assert |"tele2"| == 5 && |"moabits"| == 7;
  }

  /** The stable list of what matches, by credential. */
  type ListsOf = string -> Lists

  /** The i-th credential's adapter answers for its list. */
  ghost predicate Answers(t: Listing.Turn, cred: Credential, lists: ListsOf, q: Request, start: string,
                          ending: Ending)
  {
    forall c, n: nat ::
      t.env.fetch(cred.key, c, n) ==
        FilteredPage(lists(cred.key), Effective(q, start), q.status, ending, cred.provider, c, n)
  }

  /** A request of the run, with this page limit, over these lists. */
  ghost predicate RealTurn(t: Listing.Turn, creds: seq<Credential>, lists: ListsOf, q: Request, page: nat) {
    Listing.PageLimit(t.limit) == page
    && exists start, ending ::
         DatedStart(start) && DatedEnding(ending)
         && forall i | 0 <= i < |creds| :: Answers(t, creds[i], lists, q, start, ending)
  }

  /** What the i-th credential's list is. */
  function ListAt(creds: seq<Credential>, lists: ListsOf, i: nat): seq<Sim>
    requires i < |creds|
  {
    ListOf(lists(creds[i].key), creds[i].provider)
  }

  function ProviderOf(creds: seq<Credential>, key: string): string {
    if creds == [] then "kite"
    else
      var n := |creds| - 1;
      if creds[n].key == key then creds[n].provider else ProviderOf(creds[..n], key)
  }

  lemma {:induction false} ProviderOfKey(creds: seq<Credential>, i: nat)
    requires NoRepeats(Keys(creds)) && i < |creds|
    ensures ProviderOf(creds, creds[i].key) == creds[i].provider
  {
    var n := |creds| - 1;
    if i < n {
      assert Keys(creds)[i] != Keys(creds)[n];
      assert Keys(creds[..n]) == Keys(creds)[..n];
      ProviderOfKey(creds[..n], i);
    }
  }

  function Streams(creds: seq<Credential>, lists: ListsOf): string -> Stream {
    k => StreamOf(lists(k), AnyWindow(), 1, ProviderOf(creds, k))
  }

  /** Enough requests, all with this page limit. */
  ghost predicate AdminRun(turns: seq<Listing.Turn>, creds: seq<Credential>, lists: ListsOf, q: Request, page: nat) {
    && turns != [] && |turns| >= Listing.Total(Streams(creds, lists), Keys(creds))
    && forall t | t in turns :: RealTurn(t, creds, lists, q, page)
  }

  /** The credential can be set up every time. */
  ghost predicate AlwaysReady(turns: seq<Listing.Turn>, cred: Credential) {
    forall t | t in turns :: t.env.setup(cred.key).Ready?
  }

  /** What a run reads of the i-th credential. */
  function ReadOf(turns: seq<Listing.Turn>, creds: seq<Credential>, i: nat): seq<Sim>
    requires i < |creds|
  {
    Of(creds[i].key, Follow(AdminPage(Keys(creds)), None, turns).items)
  }

  // ---------- Ending ----------

  lemma RealTurnMovesOn(t: Listing.Turn, creds: seq<Credential>, lists: ListsOf, q: Request, page: nat)
    requires ValidRequest(creds, q) && RealTurn(t, creds, lists, q, page)
    ensures Listing.CallsMoveOn(t.env, page, Streams(creds, lists), Keys(creds))
  {
    var start, ending :| DatedStart(start) && DatedEnding(ending)
                         && forall i | 0 <= i < |creds| :: Answers(t, creds[i], lists, q, start, ending);
    var streams := Streams(creds, lists);
    EffectiveIsDated(q, start);
    forall k, c, n: nat | k in Keys(creds) && OnTrack(streams(k), At(c))
      ensures MovesOn(streams(k), c, t.env.fetch(k, c, n))
    {
      var i :| 0 <= i < |creds| && Keys(creds)[i] == k;
      ProviderOfKey(creds, i);
      assert Answers(t, creds[i], lists, q, start, ending);
      FilteredMovesOn(lists(k), Effective(q, start), q.status, ending, creds[i].provider, c, n);
    }
  }

  /** Over the real adapters every run of the admin listing ends. */
  lemma {:induction false} RealAdminEnds(turns: seq<Listing.Turn>, creds: seq<Credential>, lists: ListsOf, q: Request,
                                         page: nat)
    requires ValidRequest(creds, q) && creds != [] && AdminRun(turns, creds, lists, q, page)
    ensures Follow(AdminPage(Keys(creds)), None, turns).Ended?
  {
    var streams := Streams(creds, lists);
    forall t | t in turns
      ensures Listing.CallsMoveOn(t.env, Listing.PageLimit(t.limit), streams, Keys(creds))
    {
      RealTurnMovesOn(t, creds, lists, q, page);
    }
    forall k | k in Keys(creds) ensures streams(k).pos(None) == 0 {
      StreamsStartAtZero(lists(k), AnyWindow(), 1, ProviderOf(creds, k));
    }
    AdminRunTerminates(Keys(creds), turns, streams);
  }

  // ---------- Shares ----------

  lemma Monotone(a: int, b: int, m: nat)
    requires a <= b
    ensures a * m <= b * m
  {
  }

  /** A share of at least q reaches as many calls before it, and q of its own. */
  lemma ShareReaches(page: nat, n: nat, i: nat, q: nat)
    requires i < n && q > 0
    ensures Share(page, n, i) >= q <==> page >= (q - 1) * n + i + 1
  {
    var d, r := page / n, page % n;
    assert page == d * n + r;
    if d >= q {
      Monotone(q, d, n);
      assert q * n == (q - 1) * n + n;
    } else if d <= q - 2 {
      Monotone(d + 1, q - 1, n);
      assert (d + 1) * n == d * n + n;
    }
  }

  lemma FewerCallsNeedLess(q: nat, m: nat, j: nat, n: nat, i: nat)
    requires q > 0 && m <= n && j <= i
    ensures (q - 1) * m + j + 1 <= (q - 1) * n + i + 1
  {
    Monotone(m, n, q - 1);
  }

  /** With fewer calls, and not more of them before it, a call's share is no smaller. */
  lemma ShareGrows(page: nat, m: nat, j: nat, n: nat, i: nat)
    requires j < m <= n && j <= i < n
    ensures Share(page, n, i) <= Share(page, m, j)
  {
    var q := Share(page, n, i);
    if q > 0 {
      ShareReaches(page, n, i, q);
      FewerCallsNeedLess(q, m, j, n, i);
      ShareReaches(page, m, j, q);
    }
  }

  /** A credential that is called stands no later among the calls than in the list. */
  lemma {:induction false} CallStandsBefore(env: Listing.Env, cursors: Listing.CursorMap, names: seq<string>, i: nat)
    requires i < |names| && env.setup(names[i]).Ready? && Listing.LiveAt(cursors, names[i]).At?
    ensures var calls, j := Listing.Calls(env, cursors, names), |Listing.Calls(env, cursors, names[..i])|;
            j < |calls| <= |names| && j <= i && calls[j].key == names[i]
  {
    var n := |names| - 1;
    AtMostAll(env, cursors, names[..n]);
    if i < n {
      assert names[..n][..i] == names[..i];
      CallStandsBefore(env, cursors, names[..n], i);
    }
  }

  lemma {:induction false} AtMostAll(env: Listing.Env, cursors: Listing.CursorMap, names: seq<string>)
    ensures |Listing.Calls(env, cursors, names)| <= |names|
  {
    if names != [] { AtMostAll(env, cursors, names[..|names| - 1]); }
  }

  /** So its share lies between the one it gets when all are called, and the page. */
  lemma {:induction false} ShareBetween(env: Listing.Env, cursors: Listing.CursorMap, names: seq<string>, page: nat,
                                        i: nat)
    requires NoRepeats(names) && i < |names|
    requires env.setup(names[i]).Ready? && Listing.LiveAt(cursors, names[i]).At?
    ensures Share(page, |names|, i) <= Listing.ShareOf(env, cursors, names, page, names[i]) <= page
  {
    var calls, j := Listing.Calls(env, cursors, names), |Listing.Calls(env, cursors, names[..i])|;
    CallStandsBefore(env, cursors, names, i);
    Listing.ShareOfCall(env, cursors, names, page, j);
    ShareGrows(page, |calls|, j, |names|, i);
    ShareAtMost(page, |calls|, j);
  }

  // ---------- Credentials that are read whole ----------

  /** Tele2's page size is the same for the first share of the i-th credential,
      with all of them called, and for the whole page. */
  predicate Steady(n: nat, i: nat, page: nat)
    requires i < n
  {
    Tele2Size(Share(page, n, i)) == Tele2Size(page)
  }

  function SizesOf(cred: Credential, page: nat): nat -> bool {
    n => cred.provider == "tele2" ==> Tele2Size(n) == Tele2Size(page)
  }

  lemma AdminMeets(t: Listing.Turn, creds: seq<Credential>, i: nat, lists: ListsOf, q: Request, page: nat, size: nat,
                   c: Option<string>, n: nat)
    requires ValidRequest(creds, q) && i < |creds| && Accepted(creds[i], q) && RealTurn(t, creds, lists, q, page)
    requires creds[i].provider == "tele2" ==> Tele2Size(n) == size
    requires OnTrack(StreamOf(lists(creds[i].key), AnyWindow(), size, creds[i].provider), At(c))
    ensures Meets(StreamOf(lists(creds[i].key), AnyWindow(), size, creds[i].provider), c, n,
                  t.env.fetch(creds[i].key, c, n))
  {
    var start, ending :| DatedStart(start) && DatedEnding(ending)
                         && forall i | 0 <= i < |creds| :: Answers(t, creds[i], lists, q, start, ending);
    assert Answers(t, creds[i], lists, q, start, ending);
    EffectiveIsDated(q, start);
    AcceptedIff(creds[i], q, start);
    TakenPageMeets(lists(creds[i].key), Effective(q, start), q.status, ending, size, creds[i].provider, c, n);
  }

  lemma SizeStays(low: nat, share: nat, high: nat)
    requires low <= share <= high && Tele2Size(low) == Tele2Size(high)
    ensures Tele2Size(share) == Tele2Size(high)
  {
  }

  lemma AdminServes(t: Listing.Turn, creds: seq<Credential>, i: nat, lists: ListsOf, q: Request, page: nat)
    requires ValidRequest(creds, q) && i < |creds| && Accepted(creds[i], q) && RealTurn(t, creds, lists, q, page)
    requires t.env.setup(creds[i].key).Ready? && (creds[i].provider == "tele2" ==> Steady(|creds|, i, page))
    ensures var s := StreamOf(lists(creds[i].key), AnyWindow(), Tele2Size(page), creds[i].provider);
            Serves(t, Keys(creds), creds[i].key, s, SizesOf(creds[i], page))
  {
    var keys, sizes := Keys(creds), SizesOf(creds[i], page);
    var s := StreamOf(lists(creds[i].key), AnyWindow(), Tele2Size(page), creds[i].provider);
    forall c, n: nat | n > 0 && sizes(n) && OnTrack(s, At(c)) ensures Meets(s, c, n, t.env.fetch(creds[i].key, c, n)) {
      AdminMeets(t, creds, i, lists, q, page, Tele2Size(page), c, n);
    }
    forall cursors, n | n == Listing.ShareOf(t.env, cursors, keys, page, creds[i].key) && n > 0 ensures sizes(n) {
      if Listing.LiveAt(cursors, keys[i]).At? {
        ShareBetween(t.env, cursors, keys, page, i);
        if creds[i].provider == "tele2" { SizeStays(Share(page, |creds|, i), n, page); }
      } else {
        NoShareWithoutCall(t.env, cursors, keys, page, keys[i]);
      }
    }
  }

  /** The credential's stream, in Tele2's pages for the whole limit. */
  function StreamAt(creds: seq<Credential>, lists: ListsOf, i: nat, page: nat): Stream
    requires i < |creds|
  {
    StreamOf(lists(creds[i].key), AnyWindow(), Tele2Size(page), creds[i].provider)
  }

  lemma StreamFacts(creds: seq<Credential>, lists: ListsOf, i: nat, page: nat)
    requires i < |creds|
    ensures StreamAt(creds, lists, i, page).pos(None) == 0
    ensures StreamAt(creds, lists, i, page).items == ListAt(creds, lists, i)
  {
    StreamsStartAtZero(lists(creds[i].key), AnyWindow(), Tele2Size(page), creds[i].provider);
    WindowsAgree(lists(creds[i].key), AnyWindow(), AnyWindow(), Tele2Size(page), creds[i].provider);
  }

  /** A credential that serves and that the limit reaches is read whole. */
  lemma {:induction false} ReadWhole(turns: seq<Listing.Turn>, keys: seq<string>, i: nat, s: Stream,
                                     sizes: nat -> bool, page: nat)
    requires NoRepeats(keys) && i < |keys| && i < page && s.pos(None) == 0 && turns != []
    requires Listing.PageLimit(turns[0].limit) == page && forall t | t in turns :: Serves(t, keys, keys[i], s, sizes)
    requires Follow(AdminPage(keys), None, turns).Ended?
    ensures Of(keys[i], Follow(AdminPage(keys), None, turns).items) == s.items
  {
    assert turns[0] in turns;
    ShareBetween(turns[0].env, None, keys, page, i);
    ShareReaches(page, |keys|, i, 1);
    ServedFromTheStart(keys, turns, keys[i], s, sizes);
  }

  /** A credential that the first page's limit reaches is read whole and in order
      if its adapter takes the request and, for Tele2, it is steady. */
  lemma {:induction false} RealAdminCovers(turns: seq<Listing.Turn>, creds: seq<Credential>, i: nat, lists: ListsOf,
                                           q: Request, page: nat)
    requires ValidRequest(creds, q) && i < |creds| && AdminRun(turns, creds, lists, q, page)
    requires AlwaysReady(turns, creds[i])
    requires Accepted(creds[i], q) && i < page && (creds[i].provider == "tele2" ==> Steady(|creds|, i, page))
    ensures ReadOf(turns, creds, i) == ListAt(creds, lists, i)
  {
    var s := StreamAt(creds, lists, i, page);
    forall t | t in turns ensures Serves(t, Keys(creds), creds[i].key, s, SizesOf(creds[i], page)) {
      AdminServes(t, creds, i, lists, q, page);
    }
    assert turns[0] in turns;
    StreamFacts(creds, lists, i, page);
    RealAdminEnds(turns, creds, lists, q, page);
    ReadWhole(turns, Keys(creds), i, s, SizesOf(creds[i], page), page);
  }

  // ---------- Credentials that are not read ----------

  /** A credential that the first page neither reads nor carries on. */
  lemma {:induction false} DroppedOnFirstPage(turns: seq<Listing.Turn>, keys: seq<string>, key: string)
    requires NoRepeats(keys) && turns != []
    requires var r := AdminPage(keys)(None, turns[0]);
             Of(key, r.items) == [] && LiveNext(LiveIn(key), r.next) == Done
    ensures Of(key, Follow(AdminPage(keys), None, turns).items) == []
  {
    var r := AdminPage(keys)(None, turns[0]);
    if r.next.Some? { DoneStaysDone(keys, r.next, turns[1..], key); }
    NothingOnFirstPage(AdminPage(keys), None, turns, key);
  }

  /** A first call that fails, or is not made for want of a share, does so. */
  lemma {:induction false} FirstCallFails(t: Listing.Turn, keys: seq<string>, key: string)
    requires NoRepeats(keys) && key in keys && forall n: nat :: t.env.fetch(key, None, n).Failed?
    ensures var r := AdminPage(keys)(None, t); Of(key, r.items) == [] && LiveNext(LiveIn(key), r.next) == Done
  {
    var page := Listing.PageLimit(t.limit);
    NextCursorDecodes(keys, None, t, key);
    if t.env.setup(key).Ready? {
      Listing.PageOfProvider(t.env, None, keys, page, key);
    } else {
      Listing.PageWithoutProvider(t.env, None, keys, page, key);
    }
  }

  lemma RefusedFirstCall(t: Listing.Turn, creds: seq<Credential>, i: nat, lists: ListsOf, q: Request, page: nat, n: nat)
    requires ValidRequest(creds, q) && i < |creds| && !Accepted(creds[i], q) && RealTurn(t, creds, lists, q, page)
    ensures t.env.fetch(creds[i].key, None, n).Failed?
  {
    var start, ending :| DatedStart(start) && DatedEnding(ending)
                         && forall i | 0 <= i < |creds| :: Answers(t, creds[i], lists, q, start, ending);
    assert Answers(t, creds[i], lists, q, start, ending);
    AcceptedIff(creds[i], q, start);
    RefusedPage(lists(creds[i].key), Effective(q, start), q.status, ending, creds[i].provider, n);
  }

  /** If its adapter refuses the request, a credential is never read. */
  lemma {:induction false} RefusedIsNeverRead(turns: seq<Listing.Turn>, creds: seq<Credential>, i: nat, lists: ListsOf,
                                              q: Request, page: nat)
    requires ValidRequest(creds, q) && i < |creds| && !Accepted(creds[i], q)
    requires turns != [] && RealTurn(turns[0], creds, lists, q, page)
    ensures ReadOf(turns, creds, i) == []
  {
    assert Keys(creds)[i] == creds[i].key;
    forall n: nat ensures turns[0].env.fetch(creds[i].key, None, n).Failed? {
      RefusedFirstCall(turns[0], creds, i, lists, q, page, n);
    }
    FirstCallFails(turns[0], Keys(creds), creds[i].key);
    DroppedOnFirstPage(turns, Keys(creds), creds[i].key);
  }

  // ---------- Credentials that lose SIMs ----------

  /** All credentials can be set up, and only the i-th, of Tele2, has SIMs. */
  ghost predicate OnlyTele2(t: Listing.Turn, keys: seq<string>, i: nat, list: seq<Sim>, page: nat)
    requires i < |keys|
  {
    && Listing.PageLimit(t.limit) == page && (forall k :: t.env.setup(k).Ready?)
    && (forall k, c, n: nat | k in keys && k != keys[i] :: After(t.env.fetch(k, c, n)) == Done)
    && forall c, n: nat :: Tele2Answers(t.env.fetch(keys[i], c, n), list, CursorFields(c).page, Tele2Size(n))
  }

  /** A page as a credential sees it that is called. */
  lemma {:induction false} CalledOnPage(t: Listing.Turn, keys: seq<string>, cursor: Option<string>, key: string,
                                        share: nat, f: Fetch)
    requires NoRepeats(keys) && key in keys && t.env.setup(key).Ready? && LiveIn(key)(cursor).At?
    requires Listing.ShareOf(t.env, DecodeAdmin(cursor), keys, Listing.PageLimit(t.limit), key) == share > 0
    requires f == t.env.fetch(key, LiveIn(key)(cursor).cursor, share) && f.Page?
    ensures var r := AdminPage(keys)(cursor, t);
            Of(key, r.items) == f.items && LiveNext(LiveIn(key), r.next) == After(f)
  {
    Listing.PageOfProvider(t.env, DecodeAdmin(cursor), keys, Listing.PageLimit(t.limit), key);
    MadeCall(t.env.fetch, Call(key, LiveIn(key)(cursor).cursor), share);
    NextCursorDecodes(keys, cursor, t, key);
  }

  lemma FirstShareIs(env: Listing.Env, keys: seq<string>, page: nat, i: nat)
    requires NoRepeats(keys) && i < |keys| && forall k :: env.setup(k).Ready?
    ensures Listing.ShareOf(env, None, keys, page, keys[i]) == Share(page, |keys|, i)
  {
    CallsOfAll(env, keys);
    Listing.ShareOfCall(env, None, keys, page, i);
  }

  /** Every other credential is through after the first page, or left out of it. */
  lemma OthersEnd(t: Listing.Turn, keys: seq<string>, i: nat, list: seq<Sim>, page: nat, k: string)
    requires NoRepeats(keys) && i < |keys| && OnlyTele2(t, keys, i, list, page) && k in keys && k != keys[i]
    ensures LiveNext(LiveIn(k), AdminPage(keys)(None, t).next) == Done
  {
    Listing.PageOfProvider(t.env, None, keys, page, k);
    NextCursorDecodes(keys, None, t, k);
  }

  lemma LimitReaches(page: nat, n: nat, i: nat)
    requires i < n && i < page
    ensures Share(page, n, i) > 0
  {
    ShareReaches(page, n, i, 1);
  }

  lemma FirstAnswer(f: Fetch, list: seq<Sim>, size: nat)
    requires Tele2Answers(f, list, 1, size) && size < |list|
    ensures f.items == list[..size] && f.next.Some? && CursorFields(f.next).page == 2
  {
    FirstSlice(list, size);
  }

  /** The first page reads a first share of the list, and leaves page 2 to come. */
  lemma FirstPage(t: Listing.Turn, keys: seq<string>, i: nat, list: seq<Sim>, page: nat, size: nat)
    requires NoRepeats(keys) && i < |keys| && i < page && OnlyTele2(t, keys, i, list, page)
    requires size == Tele2Size(Share(page, |keys|, i)) < |list|
    ensures var r := AdminPage(keys)(None, t);
            var live := LiveNext(LiveIn(keys[i]), r.next);
            Of(keys[i], r.items) == list[..size] && live.At? && CursorFields(live.cursor).page == 2
  {
    var share := Share(page, |keys|, i);
    var f := t.env.fetch(keys[i], None, share);
    FirstShareIs(t.env, keys, page, i);
    LimitReaches(page, |keys|, i);
    assert Tele2Answers(f, list, CursorFields(None).page, size);
    FirstAnswer(f, list, size);
    CalledOnPage(t, keys, None, keys[i], share, f);
  }

  lemma TwoCallsDiffer(calls: seq<Call>, key: string)
    requires DistinctKeys(calls) && |calls| >= 2
    ensures exists c :: c in calls && c.key != key
  {
    assert calls[0] in calls && calls[1] in calls;
    assert calls[0].key != calls[1].key;
  }

  lemma AloneGetsAll(env: Listing.Env, cursors: Listing.CursorMap, keys: seq<string>, i: nat, page: nat)
    requires NoRepeats(keys) && i < |keys| && env.setup(keys[i]).Ready? && Listing.LiveAt(cursors, keys[i]).At?
    requires forall k | k in keys && k != keys[i] :: Listing.LiveAt(cursors, k) == Done
    ensures Listing.ShareOf(env, cursors, keys, page, keys[i]) == page
  {
    var calls := Listing.Calls(env, cursors, keys);
    Listing.CallsFacts(env, cursors, keys);
    if |calls| >= 2 { TwoCallsDiffer(calls, keys[i]); }
    Listing.ShareOfCall(env, cursors, keys, page, 0);
    assert Share(page, 1, 0) == page;
  }

  /** The second page asks for page 2 with the whole limit. */
  lemma SecondPage(t: Listing.Turn, keys: seq<string>, i: nat, list: seq<Sim>, page: nat, cursor: Option<string>)
    requires NoRepeats(keys) && i < |keys| && page > 0 && OnlyTele2(t, keys, i, list, page)
    requires |list| <= Tele2Size(page)
    requires LiveIn(keys[i])(cursor).At? && CursorFields(LiveIn(keys[i])(cursor).cursor).page == 2
    requires forall k | k in keys && k != keys[i] :: LiveIn(k)(cursor) == Done
    ensures var r := AdminPage(keys)(cursor, t);
            Of(keys[i], r.items) == [] && LiveNext(LiveIn(keys[i]), r.next) == Done
  {
    var cursors, c := DecodeAdmin(cursor), LiveIn(keys[i])(cursor).cursor;
    forall k | k in keys && k != keys[i] ensures Listing.LiveAt(cursors, k) == Done {
      assert LiveIn(k)(cursor) == Done;
    }
    AloneGetsAll(t.env, cursors, keys, i, page);
    var f := t.env.fetch(keys[i], c, page);
    assert Tele2Answers(f, list, 2, Tele2Size(page));
    CalledOnPage(t, keys, cursor, keys[i], page, f);
  }

  /** So a run reads no more than the first page of the list. */
  lemma {:induction false} RunLosesSims(turns: seq<Listing.Turn>, t: Listing.Turn, keys: seq<string>, i: nat,
                                        list: seq<Sim>, page: nat, size: nat)
    requires NoRepeats(keys) && i < |keys| && i < page && |turns| >= 2
    requires turns[0] == turns[1] == t && OnlyTele2(t, keys, i, list, page)
    requires size == Tele2Size(Share(page, |keys|, i)) < |list| <= Tele2Size(page)
    ensures Of(keys[i], Follow(AdminPage(keys), None, turns).items) == list[..size]
  {
    var step := AdminPage(keys);
    var next := step(None, turns[0]).next;
    FirstPage(t, keys, i, list, page, size);
    forall k | k in keys && k != keys[i] ensures LiveIn(k)(next) == Done {
      OthersEnd(t, keys, i, list, page, k);
    }
    SecondPage(t, keys, i, list, page, next);
    var last := step(next, turns[1]).next;
    if last.Some? { DoneStaysDone(keys, last, turns[1..][1..], keys[i]); }
    TwoPages(step, turns, keys[i], list[..size]);
  }

  /** Only the i-th credential has SIMs, n of them, which begin with `first`. */
  ghost predicate OnlySims(t: Listing.Turn, keys: seq<string>, i: nat, page: nat, n: nat, first: seq<Sim>)
    requires i < |keys|
  {
    exists list :: |list| == n && first <= list && OnlyTele2(t, keys, i, list, page)
  }

  lemma {:induction false} CredentialLosesSims(turns: seq<Listing.Turn>, t: Listing.Turn, creds: seq<Credential>,
                                               i: nat, page: nat, first: seq<Sim>)
    requires NoRepeats(Keys(creds)) && i < |creds| && i < page && |turns| >= 2 && turns[0] == turns[1] == t
    requires OnlySims(t, Keys(creds), i, page, |first| + 1, first)
    requires |first| == Tele2Size(Share(page, |creds|, i)) < Tele2Size(page)
    ensures ReadOf(turns, creds, i) == first
  {
    var list :| |list| == |first| + 1 && first <= list && OnlyTele2(t, Keys(creds), i, list, page);
    RunLosesSims(turns, t, Keys(creds), i, list, page, |first|);
  }

  // ---------- The condition is exact ----------

  function AdminFetch(creds: seq<Credential>, lists: ListsOf, q: Request, start: string, ending: Ending): Fetcher {
    (k, c, n: nat) => FilteredPage(lists(k), Effective(q, start), q.status, ending, ProviderOf(creds, k), c, n)
  }

  /** Only the i-th credential has SIMs. */
  function OnlyCredential(creds: seq<Credential>, i: nat, n: nat): ListsOf
    requires i < |creds|
  {
    k => OnlyList(creds[i].provider, if k == creds[i].key then n else 0)
  }

  function LosingTurn(creds: seq<Credential>, i: nat, n: nat, q: Request, page: nat): Listing.Turn
    requires i < |creds|
  {
    Listing.Turn(page, Listing.Env(k => Listing.Ready,
                                   AdminFetch(creds, OnlyCredential(creds, i, n), q, AnyWindow().since.value,
                                              AnyWindow().defaultTill)))
  }

  lemma LosingTurnIsReal(creds: seq<Credential>, i: nat, n: nat, q: Request, page: nat)
    requires ValidRequest(creds, q) && i < |creds| && 1 <= page <= 500
    ensures RealTurn(LosingTurn(creds, i, n, q, page), creds, OnlyCredential(creds, i, n), q, page)
  {
    var t, lists := LosingTurn(creds, i, n, q, page), OnlyCredential(creds, i, n);
    var start, ending := AnyWindow().since.value, AnyWindow().defaultTill;
    assert DatedStart(start) && DatedEnding(ending);
    forall j | 0 <= j < |creds| ensures Answers(t, creds[j], lists, q, start, ending) { ProviderOfKey(creds, j); }
  }

  ghost function LosingTurns(creds: seq<Credential>, i: nat, n: nat, q: Request, page: nat): seq<Listing.Turn>
    requires i < |creds|
  {
    seq(Listing.Total(Streams(creds, OnlyCredential(creds, i, n)), Keys(creds)) + 2,
        j => LosingTurn(creds, i, n, q, page))
  }

  /** No SIM is listed twice for a credential, or for two credentials. */
  ghost predicate OneCredentialPerSim(creds: seq<Credential>, lists: ListsOf) {
    && (forall k :: OneListPerSim(lists(k)))
    && forall i, j, sim |
         0 <= i < |creds| && 0 <= j < |creds| && sim in ListAt(creds, lists, i) && sim in ListAt(creds, lists, j) ::
         i == j
  }

  lemma OnlyCredentialIsDistinct(creds: seq<Credential>, i: nat, n: nat)
    requires i < |creds| && NoRepeats(Keys(creds)) && IsProvider(creds[i].provider)
    ensures OneCredentialPerSim(creds, OnlyCredential(creds, i, n))
  {
    var lists := OnlyCredential(creds, i, n);
    forall k ensures OneListPerSim(lists(k)) { OnlyListFacts(creds[i].provider, if k == creds[i].key then n else 0); }
    forall j | 0 <= j < |creds| && j != i ensures ListAt(creds, lists, j) == [] {
      assert Keys(creds)[j] != Keys(creds)[i];
      NothingListed(creds[i].provider, creds[j].provider);
    }
  }

  /** The i-th credential is read whole and in order by every run in which it can
      be set up, for all lists without repeats. */
  ghost predicate AdminIsComplete(creds: seq<Credential>, i: nat, q: Request, page: nat)
    requires i < |creds|
  {
    forall turns, lists |
      AdminRun(turns, creds, lists, q, page) && AlwaysReady(turns, creds[i])
      && OneCredentialPerSim(creds, lists) ::
      ReadOf(turns, creds, i) == ListAt(creds, lists, i)
  }

  lemma {:induction false} LosingRun(creds: seq<Credential>, i: nat, n: nat, q: Request, page: nat)
    requires ValidRequest(creds, q) && i < |creds| && 1 <= page <= 500
    ensures AdminRun(LosingTurns(creds, i, n, q, page), creds, OnlyCredential(creds, i, n), q, page)
  {
    LosingTurnIsReal(creds, i, n, q, page);
  }

  lemma {:induction false} LosingRunIsMissing(creds: seq<Credential>, i: nat, n: nat, q: Request, page: nat)
    requires ValidRequest(creds, q) && i < |creds| && 1 <= page <= 500
    requires ReadOf(LosingTurns(creds, i, n, q, page), creds, i) != ListAt(creds, OnlyCredential(creds, i, n), i)
    ensures !AdminIsComplete(creds, i, q, page)
  {
    LosingRun(creds, i, n, q, page);
    OnlyCredentialIsDistinct(creds, i, n);
  }

  lemma {:induction false} RefusedIsIncomplete(creds: seq<Credential>, i: nat, q: Request, page: nat)
    requires ValidRequest(creds, q) && i < |creds| && 1 <= page <= 500 && !Accepted(creds[i], q)
    ensures !AdminIsComplete(creds, i, q, page)
  {
    LosingTurnIsReal(creds, i, 1, q, page);
    RefusedIsNeverRead(LosingTurns(creds, i, 1, q, page), creds, i, OnlyCredential(creds, i, 1), q, page);
    LosingRunIsMissing(creds, i, 1, q, page);
  }

  lemma {:induction false} LateIsIncomplete(creds: seq<Credential>, i: nat, q: Request, page: nat)
    requires ValidRequest(creds, q) && i < |creds| && 1 <= page <= 500 && i >= page
    ensures !AdminIsComplete(creds, i, q, page)
  {
    var turns, keys := LosingTurns(creds, i, 1, q, page), Keys(creds);
    FirstShares(turns[0].env, keys, page, i);
    LeftOutFromTheStart(keys, turns, keys[i]);
    LosingRunIsMissing(creds, i, 1, q, page);
  }

  lemma OtherCredentialEnds(creds: seq<Credential>, i: nat, n: nat, q: Request, page: nat, k: string,
                            c: Option<string>, m: nat)
    requires ValidRequest(creds, q) && i < |creds| && k in Keys(creds) && k != creds[i].key
    ensures After(LosingTurn(creds, i, n, q, page).env.fetch(k, c, m)) == Done
  {
    var j :| 0 <= j < |creds| && Keys(creds)[j] == k;
    var start := AnyWindow().since.value;
    ProviderOfKey(creds, j);
    NothingListed(creds[i].provider, creds[j].provider);
    EffectiveIsDated(q, start);
    EmptyListEnds(OnlyCredential(creds, i, n)(k), Effective(q, start), q.status, AnyWindow().defaultTill,
                  creds[j].provider, c, m);
  }

  lemma Tele2CredentialAnswers(creds: seq<Credential>, i: nat, n: nat, q: Request, page: nat, c: Option<string>, m: nat)
    requires ValidRequest(creds, q) && i < |creds| && creds[i].provider == "tele2" && Accepted(creds[i], q)
    ensures Tele2Answers(LosingTurn(creds, i, n, q, page).env.fetch(creds[i].key, c, m), OnlyList("tele2", n).tele2,
                         CursorFields(c).page, Tele2Size(m))
  {
    var start, ending := AnyWindow().since.value, AnyWindow().defaultTill;
    var f := Effective(q, start);
    assert |"kite"| == 4 && |"tele2"| == 5 && |"moabits"| == 7;
    ProviderOfKey(creds, i);
    EffectiveIsDated(q, start);
    AcceptedIff(creds[i], q, start);
    Tele2PageAnswers(OnlyList("tele2", n).tele2, Window(f.since, f.till, ending), c, m);
  }

  lemma LosingTurnIsOnlyTele2(creds: seq<Credential>, i: nat, n: nat, q: Request, page: nat)
    requires ValidRequest(creds, q) && i < |creds| && creds[i].provider == "tele2" && Accepted(creds[i], q)
    requires 1 <= page <= 500
    ensures OnlyTele2(LosingTurn(creds, i, n, q, page), Keys(creds), i, OnlyList("tele2", n).tele2, page)
  {
    var t, list := LosingTurn(creds, i, n, q, page), OnlyList("tele2", n).tele2;
    forall k, c, m: nat | k in Keys(creds) && k != creds[i].key ensures After(t.env.fetch(k, c, m)) == Done {
      OtherCredentialEnds(creds, i, n, q, page, k, c, m);
    }
    forall c, m: nat
      ensures Tele2Answers(t.env.fetch(creds[i].key, c, m), list, CursorFields(c).page, Tele2Size(m))
    {
      Tele2CredentialAnswers(creds, i, n, q, page, c, m);
    }
  }

  lemma Tele2ListLength(n: nat)
    ensures |OnlyList("tele2", n).tele2| == n
  {
    assert |"kite"| == 4 && |"tele2"| == 5;
  }

  lemma LosingTurnHasSims(creds: seq<Credential>, i: nat, n: nat, q: Request, page: nat, first: seq<Sim>)
    requires ValidRequest(creds, q) && i < |creds| && creds[i].provider == "tele2" && Accepted(creds[i], q)
    requires 1 <= page <= 500 && first <= ListAt(creds, OnlyCredential(creds, i, n), i)
    ensures OnlySims(LosingTurn(creds, i, n, q, page), Keys(creds), i, page, n, first)
  {
    LosingTurnIsOnlyTele2(creds, i, n, q, page);
    Tele2ListLength(n);
    assert |"kite"| == 4 && |"tele2"| == 5;
  }

  lemma LosingTurnsStart(creds: seq<Credential>, i: nat, n: nat, q: Request, page: nat)
    requires i < |creds|
    ensures var turns := LosingTurns(creds, i, n, q, page);
            |turns| >= 2 && turns[0] == turns[1] == LosingTurn(creds, i, n, q, page)
  {
  }

  lemma SizeGrows(n: nat, i: nat, page: nat)
    requires i < n && !Steady(n, i, page)
    ensures Tele2Size(Share(page, n, i)) < Tele2Size(page)
  {
    ShareAtMost(page, n, i);
  }

  lemma OnlyCredentialFits(creds: seq<Credential>, i: nat, n: nat)
    requires i < |creds| && IsProvider(creds[i].provider)
    ensures |ListAt(creds, OnlyCredential(creds, i, n), i)| == n
  {
  }

  /** A Tele2 credential that is not steady can lose a SIM: once it is alone it gets
      the whole limit, and page 2 starts behind the end of its list. */
  lemma {:induction false} UnsteadyCredentialLosesSim(creds: seq<Credential>, i: nat, q: Request, page: nat, size: nat)
    requires ValidRequest(creds, q) && i < |creds| && creds[i].provider == "tele2" && Accepted(creds[i], q)
    requires i < page <= 500 && !Steady(|creds|, i, page) && size == Tele2Size(Share(page, |creds|, i))
    ensures var list := ListAt(creds, OnlyCredential(creds, i, size + 1), i);
            |list| == size + 1 && ReadOf(LosingTurns(creds, i, size + 1, q, page), creds, i) == list[..size]
  {
    OnlyCredentialFits(creds, i, size + 1);
    var first := ListAt(creds, OnlyCredential(creds, i, size + 1), i)[..size];
    SizeGrows(|creds|, i, page);
    LosingTurnHasSims(creds, i, size + 1, q, page, first);
    LosingTurnsStart(creds, i, size + 1, q, page);
    CredentialLosesSims(LosingTurns(creds, i, size + 1, q, page), LosingTurn(creds, i, size + 1, q, page), creds, i,
                        page, first);
  }

  lemma {:induction false} ShorterIsMissing(creds: seq<Credential>, i: nat, n: nat, q: Request, page: nat)
    requires ValidRequest(creds, q) && i < |creds| && 1 <= page <= 500
    requires |ReadOf(LosingTurns(creds, i, n, q, page), creds, i)| < n
    ensures !AdminIsComplete(creds, i, q, page)
  {
    OnlyCredentialFits(creds, i, n);
    LosingRunIsMissing(creds, i, n, q, page);
  }

  lemma {:induction false} UnsteadyIsIncomplete(creds: seq<Credential>, i: nat, q: Request, page: nat)
    requires ValidRequest(creds, q) && i < |creds| && creds[i].provider == "tele2" && Accepted(creds[i], q)
    requires i < page <= 500 && !Steady(|creds|, i, page)
    ensures !AdminIsComplete(creds, i, q, page)
  {
    var size := Tele2Size(Share(page, |creds|, i));
    UnsteadyCredentialLosesSim(creds, i, q, page, size);
    ShorterIsMissing(creds, i, size + 1, q, page);
  }

  lemma {:induction false} AcceptedIsComplete(creds: seq<Credential>, i: nat, q: Request, page: nat)
    requires ValidRequest(creds, q) && i < |creds| && i < page <= 500 && Accepted(creds[i], q)
    requires creds[i].provider == "tele2" ==> Steady(|creds|, i, page)
    ensures AdminIsComplete(creds, i, q, page)
  {
    forall turns, lists |
      AdminRun(turns, creds, lists, q, page) && AlwaysReady(turns, creds[i])
      ensures ReadOf(turns, creds, i) == ListAt(creds, lists, i)
    {
      RealAdminCovers(turns, creds, i, lists, q, page);
    }
  }

  /** A credential is always read whole exactly when its adapter takes the request,
      the page limit reaches it and, for Tele2, it is steady. */
  lemma {:induction false} AdminIsCompleteIff(creds: seq<Credential>, i: nat, q: Request, page: nat)
    requires ValidRequest(creds, q) && i < |creds| && 1 <= page <= 500
    ensures AdminIsComplete(creds, i, q, page)
            <==> Accepted(creds[i], q) && i < page && (creds[i].provider == "tele2" ==> Steady(|creds|, i, page))
  {
    if !Accepted(creds[i], q) {
      RefusedIsIncomplete(creds, i, q, page);
    } else if i >= page {
      LateIsIncomplete(creds, i, q, page);
    } else if creds[i].provider == "tele2" && !Steady(|creds|, i, page) {
      UnsteadyIsIncomplete(creds, i, q, page);
    } else {
      AcceptedIsComplete(creds, i, q, page);
    }
  }

  /** Steady means: the only credential, a limit of one, or a first share that fills
      a native page. */
  lemma SteadyIff(n: nat, i: nat, page: nat)
    requires i < n && i < page
    ensures Steady(n, i, page) <==> n == 1 || page == 1 || Share(page, n, i) >= 50
  {
    ShareAtMost(page, n, i);
    if n == 1 { assert Share(page, 1, 0) == page; }
    if n >= 2 && page >= 2 {
      ShareReaches(page, n, i, page);
      Monotone(2, n, page - 1);
    }
  }
}
