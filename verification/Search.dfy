/** Search over the providers, several native statuses each: every provider's
    status cursor is nested as a value in the global cursor. */
module Search {
  import opened Option
  import opened Json
  import opened Cursors
  import opened Paging
  import opened FanOut
  import opened Runs
  import opened Unique
  import opened Listing
  import Adapters

  /** One provider's part of a search request. */
  datatype Selection = Selection(provider: string, cursor: Option<string>, limit: Option<nat>,
                                 status: Option<string>, statuses: seq<string>, filters: Adapters.Filters)

  /** The statuses asked for, once each; the empty key means no status filter. */
  function StatusKeys(sel: Selection): (keys: seq<string>)
    ensures keys != []
  {
    var given := if sel.status.Some? then [sel.status.value] else [];
    var keys := Dedupe(NonEmpty(given + sel.statuses));
    if keys == [] then [""] else keys
  }

  lemma StatusKeysDiffer(sel: Selection)
    ensures NoRepeats(StatusKeys(sel))
  {
    DedupeFacts(NonEmpty((if sel.status.Some? then [sel.status.value] else []) + sel.statuses));
  }

  lemma {:induction false} GivenStatuses(sel: Selection, s: string)
    ensures s in Dedupe(NonEmpty((if sel.status.Some? then [sel.status.value] else []) + sel.statuses)) <==>
            s != "" && (sel.status == Some(s) || s in sel.statuses)
  {
    var given := if sel.status.Some? then [sel.status.value] else [];
    DedupedHas(given + sel.statuses, s);
    assert s in given <==> sel.status == Some(s);
  }

  lemma {:induction false} DedupedHas(xs: seq<string>, s: string)
    ensures s in Dedupe(NonEmpty(xs)) <==> s in xs && s != ""
  {
    DedupeFacts(NonEmpty(xs));
    NonEmptyFacts(xs);
  }

  /** A status is searched exactly if it is asked for; the empty key exactly if none is. */
  lemma {:induction false} StatusKeysHas(sel: Selection, s: string)
    ensures s != "" ==> (s in StatusKeys(sel) <==> sel.status == Some(s) || s in sel.statuses)
    ensures "" in StatusKeys(sel) <==> forall t :: sel.status == Some(t) || t in sel.statuses ==> t == ""
  {
    var keys := Dedupe(NonEmpty((if sel.status.Some? then [sel.status.value] else []) + sel.statuses));
    forall t ensures t in keys <==> t != "" && (sel.status == Some(t) || t in sel.statuses) { GivenStatuses(sel, t); }
    if keys != [] { assert keys[0] in keys; }
  }

  /** A native listing by provider, status, cursor and limit. */
  type StatusFetcher = (string, string, Option<string>, nat) -> Fetch

  datatype SearchEnv = SearchEnv(setup: string -> Setup, fetch: StatusFetcher, keep: (string, string, Sim) -> bool)

  function Ones(n: nat): (limits: seq<nat>)
    ensures |limits| == n
  {
    seq(n, i => 1)
  }

  // ---------- One provider: its status streams ----------

  /** Where a provider's cursor leaves one of its statuses: a status cursor
      names the statuses that are still live, any other cursor is for all. */
  function StatusLive(live: Live, key: string): Live {
    if live.Done? then Done
    else
      var m := DecodeStatus(live.cursor);
      if m.None? then live else LiveAt(m, key)
  }

  function StatusCalls(cursor: Option<string>, keys: seq<string>): seq<Call> {
    if keys == [] then []
    else
      var n := |keys| - 1;
      var live := StatusLive(At(cursor), keys[n]);
      StatusCalls(cursor, keys[..n]) + if live.At? then [Call(keys[n], live.cursor)] else []
  }

  lemma {:induction false} StatusCallsFacts(cursor: Option<string>, keys: seq<string>)
    requires NoRepeats(keys)
    ensures DistinctKeys(StatusCalls(cursor, keys))
    ensures |StatusCalls(cursor, keys)| <= |keys|
    ensures forall c | c in StatusCalls(cursor, keys) :: c.key in keys && StatusLive(At(cursor), c.key) == At(c.cursor)
    ensures forall k | k in keys && StatusLive(At(cursor), k).At? ::
              Call(k, StatusLive(At(cursor), k).cursor) in StatusCalls(cursor, keys)
  {
    if keys != [] {
      var n := |keys| - 1;
      StatusCallsFacts(cursor, keys[..n]);
      assert keys == keys[..n] + [keys[n]];
    }
  }

  /** The share of the call with this key. */
  function LimitOf(calls: seq<Call>, limits: seq<nat>, key: string): nat
    requires |calls| == |limits|
  {
    if calls == [] then 0
    else
      var n := |calls| - 1;
      if calls[n].key == key then limits[n] else LimitOf(calls[..n], limits[..n], key)
  }

  lemma {:induction false} LimitOfCall(calls: seq<Call>, limits: seq<nat>, k: nat)
    requires |calls| == |limits| && DistinctKeys(calls) && k < |calls|
    ensures LimitOf(calls, limits, calls[k].key) == limits[k]
  {
    var n := |calls| - 1;
    if k < n { LimitOfCall(calls[..n], limits[..n], k); }
  }

  /** One provider's calls of a page. A zero share is sent like any other. */
  datatype Plan = Plan(provider: string, calls: seq<Call>, limits: seq<nat>)

  function PlanFor(sel: Selection, cursor: Option<string>, limit: nat): (plan: Plan)
    ensures |plan.calls| == |plan.limits|
  {
    var calls := StatusCalls(if sel.cursor.Some? then sel.cursor else cursor, StatusKeys(sel));
    Plan(sel.provider, calls, CallLimits(limit, |calls|))
  }

  /** The answer a live status gets. */
  function Answer(env: SearchEnv, plan: Plan, cursor: Option<string>, key: string): Fetch
    requires |plan.calls| == |plan.limits|
  {
    env.fetch(plan.provider, key, cursor, LimitOf(plan.calls, plan.limits, key))
  }

  function StatusFetch(env: SearchEnv, plan: Plan): Fetcher
    requires |plan.calls| == |plan.limits|
  {
    (k, c, one: nat) => Answer(env, plan, c, k)
  }

  /** What the provider's statuses answer, in order, tagged with the status. */
  function StatusReads(env: SearchEnv, plan: Plan): seq<Item>
    requires |plan.calls| == |plan.limits|
  {
    Items(StatusFetch(env, plan), plan.calls, Ones(|plan.calls|))
  }

  function StatusNext(env: SearchEnv, plan: Plan): Dict
    requires |plan.calls| == |plan.limits|
  {
    Next(StatusFetch(env, plan), plan.calls, Ones(|plan.calls|))
  }

  /** With several statuses asked for, the live ones are packed into a status
      cursor; with one, its native cursor is passed on as it is. */
  function Pack(many: bool, next: Dict): Option<string> {
    if many then EncodeStatus(next) else if next == [] then None else next[0].value
  }

  function ProviderNext(env: SearchEnv, sel: Selection, plan: Plan): Option<string>
    requires |plan.calls| == |plan.limits|
  {
    Pack(|StatusKeys(sel)| > 1, StatusNext(env, plan))
  }

  function LiveOf(cursor: Option<string>): Live { if cursor.Some? then At(cursor) else Done }

  /** Native cursors are never taken for status cursors. */
  ghost predicate Native(f: Fetch) { f.Page? && f.next.Some? ==> DecodeStatus(f.next) == None }

  function ReadFor(env: SearchEnv, plan: Plan, live: Live, key: string): seq<Sim>
    requires |plan.calls| == |plan.limits|
  {
    if live.At? && Answer(env, plan, live.cursor, key).Page? then Answer(env, plan, live.cursor, key).items else []
  }

  function NextFor(env: SearchEnv, plan: Plan, live: Live, key: string): Live
    requires |plan.calls| == |plan.limits|
  {
    if live.At? then After(Answer(env, plan, live.cursor, key)) else Done
  }

  /** A call that is made, seen on its own. */
  lemma {:induction false} AskedCall(fetch: Fetcher, calls: seq<Call>, i: nat)
    requires DistinctKeys(calls) && i < |calls|
    ensures var f, ones := fetch(calls[i].key, calls[i].cursor, 1), Ones(|calls|);
            Of(calls[i].key, Items(fetch, calls, ones)) == (if f.Page? then f.items else [])
            && LiveAt(Some(ToMap(Next(fetch, calls, ones))), calls[i].key) == After(f)
  {
    var ones := Ones(|calls|);
    assert ones[i] == 1;
    MadeCall(fetch, calls[i], 1);
    ItemsOfCall(fetch, calls, ones, i);
    NextOfCall(fetch, calls, ones, i);
  }

  lemma {:induction false} StatusOutcome(env: SearchEnv, plan: Plan, cursor: Option<string>, keys: seq<string>,
                                         key: string)
    requires |plan.calls| == |plan.limits| && plan.calls == StatusCalls(cursor, keys)
    requires NoRepeats(keys) && key in keys
    ensures var live := StatusLive(At(cursor), key);
            Of(key, StatusReads(env, plan)) == ReadFor(env, plan, live, key)
            && LiveAt(Some(ToMap(StatusNext(env, plan))), key) == NextFor(env, plan, live, key)
  {
    var fetch, live := StatusFetch(env, plan), StatusLive(At(cursor), key);
    StatusCallsFacts(cursor, keys);
    if live.At? {
      var i :| 0 <= i < |plan.calls| && plan.calls[i] == Call(key, live.cursor);
      AskedCall(fetch, plan.calls, i);
      assert fetch(key, live.cursor, 1) == Answer(env, plan, live.cursor, key);
    } else {
      NoItemsWithoutCall(fetch, plan.calls, Ones(|plan.calls|), key);
      NextNeedsCall(fetch, plan.calls, Ones(|plan.calls|), key);
    }
  }

  lemma {:induction false} PackedPage(env: SearchEnv, plan: Plan, cursor: Option<string>, keys: seq<string>,
                                      key: string)
    requires |plan.calls| == |plan.limits| && plan.calls == StatusCalls(cursor, keys)
    requires NoRepeats(keys) && key in keys
    requires forall k, c, n :: Native(env.fetch(plan.provider, k, c, n))
    ensures StatusLive(LiveOf(Pack(|keys| > 1, StatusNext(env, plan))), key)
         == LiveAt(Some(ToMap(StatusNext(env, plan))), key)
  {
    StatusCallsFacts(cursor, keys);
    if |keys| > 1 {
      PackedStatuses(env, plan, key);
    } else {
      assert keys == [key];
      SingleStatus(env, plan, key);
    }
  }

  /** One page of a provider, seen by one of its statuses: it reads what the
      provider answered for it, and the provider's next cursor, decoded again,
      resumes it right behind, or not at all once it is drained. */
  lemma {:induction false} ProviderPage(env: SearchEnv, sel: Selection, cursor: Option<string>, limit: nat, key: string)
    requires key in StatusKeys(sel) && sel.cursor.None?
    requires forall k, c, n :: Native(env.fetch(sel.provider, k, c, n))
    ensures var plan, live := PlanFor(sel, cursor, limit), StatusLive(At(cursor), key);
            Of(key, StatusReads(env, plan)) == ReadFor(env, plan, live, key)
            && StatusLive(LiveOf(ProviderNext(env, sel, plan)), key) == NextFor(env, plan, live, key)
  {
    var plan, keys := PlanFor(sel, cursor, limit), StatusKeys(sel);
    StatusKeysDiffer(sel);
    StatusOutcome(env, plan, cursor, keys, key);
    PackedPage(env, plan, cursor, keys, key);
  }

  /** Live cursors are never None, so packing them loses nothing. */
  lemma PackedStatuses(env: SearchEnv, plan: Plan, key: string)
    requires |plan.calls| == |plan.limits| && DistinctKeys(plan.calls)
    ensures StatusLive(LiveOf(EncodeStatus(StatusNext(env, plan))), key)
         == LiveAt(Some(ToMap(StatusNext(env, plan))), key)
  {
    var next := StatusNext(env, plan);
    NextIsDistinct(StatusFetch(env, plan), plan.calls, Ones(|plan.calls|));
    forall k | k in ToMap(next) ensures ToMap(next)[k].Some? {
      ToMapHas(next, k, ToMap(next)[k]);
      NextHas(StatusFetch(env, plan), plan.calls, Ones(|plan.calls|), Member(k, ToMap(next)[k]));
    }
    assert WithoutNone(ToMap(next)) == ToMap(next);
    CursorRoundTrip(STATUS_PREFIX, next);
  }

  lemma SingleStatus(env: SearchEnv, plan: Plan, key: string)
    requires |plan.calls| == |plan.limits| && |plan.calls| <= 1
    requires forall c | c in plan.calls :: c.key == key
    requires forall k, c, n :: Native(env.fetch(plan.provider, k, c, n))
    ensures StatusLive(LiveOf(Pack(false, StatusNext(env, plan))), key)
         == LiveAt(Some(ToMap(StatusNext(env, plan))), key)
  {
    if plan.calls != [] {
      var call := plan.calls[0];
      assert call in plan.calls;
      NextOfOne(StatusFetch(env, plan), plan.calls, Ones(1));
      assert Native(Answer(env, plan, call.cursor, key));
      if StatusNext(env, plan) != [] {
        assert StatusNext(env, plan)[..0] == [];
      }
    }
  }

  // ---------- All providers ----------

  /** The request: the selected providers, in order, and the page limit. */
  datatype Ask = Ask(selections: seq<Selection>, limit: nat)

  predicate WellFormed(ask: Ask) {
    && (forall i, j | 0 <= i < j < |ask.selections| :: ask.selections[i].provider != ask.selections[j].provider)
    && (forall s | s in ask.selections :: IsProvider(s.provider))
  }

  function Providers(selections: seq<Selection>): seq<string> {
    seq(|selections|, i requires 0 <= i < |selections| => selections[i].provider)
  }

  /** How many selections ask for no limit of their own. */
  function Unlimited(selections: seq<Selection>): nat {
    if selections == [] then 0
    else Unlimited(selections[..|selections| - 1]) + if selections[|selections| - 1].limit.None? then 1 else 0
  }

  /** How many default shares the live selections before the i-th took. */
  function Taken(selections: seq<Selection>, cursors: CursorMap): nat {
    if selections == [] then 0
    else
      var last := selections[|selections| - 1];
      Taken(selections[..|selections| - 1], cursors) +
      if LiveAt(cursors, last.provider).At? && last.limit.None? then 1 else 0
  }

  function LimitFor(ask: Ask, cursors: CursorMap, i: nat): nat
    requires i < |ask.selections|
  {
    var shares := CallLimits(ask.limit, Unlimited(ask.selections));
    var k := Taken(ask.selections[..i], cursors);
    if ask.selections[i].limit.Some? then ask.selections[i].limit.value
    else if k < |shares| then shares[k] else ask.limit
  }

  function IndexOf(selections: seq<Selection>, provider: string): (i: nat)
    ensures i <= |selections|
    ensures i < |selections| ==> selections[i].provider == provider
    ensures i == |selections| ==> forall s | s in selections :: s.provider != provider
  {
    if selections == [] then 0
    else
      var n := |selections| - 1;
      var i := IndexOf(selections[..n], provider);
      if i < n then i else if selections[n].provider == provider then n else n + 1
  }

  /** The plan of a live provider on a page. */
  function PlanOn(ask: Ask, cursors: CursorMap, i: nat, cursor: Option<string>): (plan: Plan)
    requires i < |ask.selections|
    ensures |plan.calls| == |plan.limits|
  {
    PlanFor(ask.selections[i], cursor, LimitFor(ask, cursors, i))
  }

  function KeptSims(env: SearchEnv, provider: string, found: seq<Item>): seq<Sim> {
    if found == [] then []
    else
      var n := |found| - 1;
      KeptSims(env, provider, found[..n]) +
      if env.keep(provider, found[n].key, found[n].sim) then [found[n].sim] else []
  }

  /** A provider with all its statuses, taken as one call. */
  function ProviderFetch(ask: Ask, cursors: CursorMap, env: SearchEnv): Fetcher {
    (p, c, one: nat) =>
      var i := IndexOf(ask.selections, p);
      if i == |ask.selections| then Failed
      else
        var plan := PlanOn(ask, cursors, i, c);
        Page(KeptSims(env, p, StatusReads(env, plan)), ProviderNext(env, ask.selections[i], plan))
  }

  function Composite(ask: Ask, cursors: CursorMap, env: SearchEnv): Env {
    Env(env.setup, ProviderFetch(ask, cursors, env))
  }

  function SearchCalls(ask: Ask, cursors: CursorMap, env: SearchEnv): seq<Call> {
    Calls(Composite(ask, cursors, env), cursors, Providers(ask.selections))
  }

  /** The SIMs shown: every provider's, filtered, each once. */
  function SearchItems(ask: Ask, cursors: CursorMap, env: SearchEnv): seq<Item> {
    var calls := SearchCalls(ask, cursors, env);
    Dedupe(Items(ProviderFetch(ask, cursors, env), calls, Ones(|calls|)))
  }

  function SearchDict(ask: Ask, cursors: CursorMap, env: SearchEnv): Dict {
    var calls := SearchCalls(ask, cursors, env);
    Next(ProviderFetch(ask, cursors, env), calls, Ones(|calls|))
  }

  /** A status of the provider could not be listed. */
  function SomeStatusFails(env: SearchEnv, plan: Plan): bool
    requires |plan.calls| == |plan.limits|
  {
    FailedKeys(StatusFetch(env, plan), plan.calls, Ones(|plan.calls|)) != {}
  }

  /** Some status of the provider that is called fails. */
  function ProviderFails(ask: Ask, cursors: CursorMap, env: SearchEnv, call: Call): bool {
    var i := IndexOf(ask.selections, call.key);
    i < |ask.selections| && SomeStatusFails(env, PlanOn(ask, cursors, i, call.cursor))
  }

  function FailsOn(ask: Ask, cursors: CursorMap, env: SearchEnv): Call -> bool {
    c => ProviderFails(ask, cursors, env, c)
  }

  function KeysWhere(calls: seq<Call>, fails: Call -> bool): set<string> {
    if calls == [] then {}
    else KeysWhere(calls[..|calls| - 1], fails) + if fails(calls[|calls| - 1]) then {calls[|calls| - 1].key} else {}
  }

  /** The providers that a page reports as failed. */
  function SearchFailed(ask: Ask, cursors: CursorMap, env: SearchEnv): set<string> {
    SetupFailures(Composite(ask, cursors, env), cursors, Providers(ask.selections)) +
    KeysWhere(SearchCalls(ask, cursors, env), FailsOn(ask, cursors, env))
  }

  function SearchNext(ask: Ask, cursor: Option<string>, env: SearchEnv): Option<string> {
    EncodeGlobal(SearchDict(ask, DecodeGlobal(cursor), env))
  }

  // ---------- Runs, seen by one stream ----------

  datatype SearchTurn = SearchTurn(limit: nat, env: SearchEnv)

  /** What the i-th provider's listing for a status yields on a page. */
  function StreamReads(ask: Ask, i: nat, key: string, cursors: CursorMap, env: SearchEnv): seq<Sim>
    requires i < |ask.selections|
  {
    var live := LiveAt(cursors, ask.selections[i].provider);
    if live.Done? || !env.setup(ask.selections[i].provider).Ready? then []
    else Of(key, StatusReads(env, PlanOn(ask, cursors, i, live.cursor)))
  }

  /** The endpoint as one (provider, status) stream sees it: what is read of the
      stream, and the page's one cursor for everything. */
  function SearchPage(selections: seq<Selection>, i: nat, key: string): (Option<string>, SearchTurn) -> Result
    requires i < |selections|
  {
    (cursor, turn: SearchTurn) =>
      var ask := Ask(selections, turn.limit);
      Listed(Tag(key, StreamReads(ask, i, key, DecodeGlobal(cursor), turn.env)), SearchNext(ask, cursor, turn.env), {})
  }

  function StreamIn(provider: string, key: string): Option<string> -> Live {
    cursor => StatusLive(LiveAt(DecodeGlobal(cursor), provider), key)
  }

  /** The provider's entry in the next global cursor is its next cursor. */
  lemma NextOfProvider(ask: Ask, cursor: Option<string>, env: SearchEnv, i: nat)
    requires WellFormed(ask) && i < |ask.selections|
    ensures var p, cursors := ask.selections[i].provider, DecodeGlobal(cursor);
            var live := LiveAt(cursors, p);
            LiveNext(c => LiveAt(DecodeGlobal(c), p), SearchNext(ask, cursor, env)) ==
              if live.At? && env.setup(p).Ready?
              then LiveOf(ProviderNext(env, ask.selections[i], PlanOn(ask, cursors, i, live.cursor))) else Done
  {
    var p, cursors := ask.selections[i].provider, DecodeGlobal(cursor);
    DictOfProvider(ask, cursors, env, i);
    DictIsEncodable(ask, cursors, env);
    GlobalRoundTrip(SearchDict(ask, cursors, env));
  }

  lemma ProvidersDifferIn(ask: Ask)
    requires WellFormed(ask)
    ensures NoRepeats(Providers(ask.selections)) && forall p | p in Providers(ask.selections) :: IsProvider(p)
  {
    forall p | p in Providers(ask.selections) ensures IsProvider(p) {
      var j :| 0 <= j < |ask.selections| && Providers(ask.selections)[j] == p;
      assert ask.selections[j] in ask.selections;
    }
  }

  lemma DictIsEncodable(ask: Ask, cursors: CursorMap, env: SearchEnv)
    requires WellFormed(ask)
    ensures Distinct(SearchDict(ask, cursors, env))
    ensures forall m | m in SearchDict(ask, cursors, env) :: IsProvider(m.key)
  {
    var calls, fetch := SearchCalls(ask, cursors, env), ProviderFetch(ask, cursors, env);
    ProvidersDifferIn(ask);
    CallsFacts(Composite(ask, cursors, env), cursors, Providers(ask.selections));
    NextIsDistinct(fetch, calls, Ones(|calls|));
    forall m | m in SearchDict(ask, cursors, env) ensures IsProvider(m.key) {
      NextHas(fetch, calls, Ones(|calls|), m);
      var j :| 0 <= j < |calls| && calls[j].key == m.key;
      assert calls[j] in calls;
    }
  }

  lemma IndexOfProvider(ask: Ask, i: nat)
    requires WellFormed(ask) && i < |ask.selections|
    ensures IndexOf(ask.selections, ask.selections[i].provider) == i
  {
    assert ask.selections[i] in ask.selections;
  }

  lemma DictOfProvider(ask: Ask, cursors: CursorMap, env: SearchEnv, i: nat)
    requires WellFormed(ask) && i < |ask.selections|
    ensures var p := ask.selections[i].provider;
            var live := LiveAt(cursors, p);
            LiveAt(Some(ToMap(SearchDict(ask, cursors, env))), p) ==
              if live.At? && env.setup(p).Ready?
              then LiveOf(ProviderNext(env, ask.selections[i], PlanOn(ask, cursors, i, live.cursor))) else Done
  {
    var p, calls, fetch := ask.selections[i].provider, SearchCalls(ask, cursors, env), ProviderFetch(ask, cursors, env);
    var live, composite := LiveAt(cursors, p), Composite(ask, cursors, env);
    ProvidersDifferIn(ask);
    CallsFacts(composite, cursors, Providers(ask.selections));
    assert composite.setup(p) == env.setup(p);
    if live.At? && env.setup(p).Ready? {
      assert Providers(ask.selections)[i] == p;
      var j :| 0 <= j < |calls| && calls[j] == Call(p, live.cursor);
      AskedCall(fetch, calls, j);
      IndexOfProvider(ask, i);
      AfterProviderFetch(ask, cursors, env, i, live.cursor);
    } else {
      NextNeedsCall(fetch, calls, Ones(|calls|), p);
    }
  }

  lemma AfterProviderFetch(ask: Ask, cursors: CursorMap, env: SearchEnv, i: nat, c: Option<string>)
    requires i < |ask.selections| && IndexOf(ask.selections, ask.selections[i].provider) == i
    ensures After(ProviderFetch(ask, cursors, env)(ask.selections[i].provider, c, 1))
         == LiveOf(ProviderNext(env, ask.selections[i], PlanOn(ask, cursors, i, c)))
  {
  }

  /** On this turn the i-th provider is ready, its listing for `key` pages
      through s, and native cursors do not look like status cursors. */
  ghost predicate Serves(turn: SearchTurn, selections: seq<Selection>, i: nat, key: string, s: Stream,
                         sizes: nat -> bool)
    requires i < |selections|
  {
    var p := selections[i].provider;
    && turn.env.setup(p).Ready?
    && (forall k, c, n :: Native(turn.env.fetch(p, k, c, n)))
    && (forall c, n: nat | sizes(n) && OnTrack(s, At(c)) :: Meets(s, c, n, turn.env.fetch(p, key, c, n)))
    && (forall cursors, c ::
          StatusLive(At(c), key).At? ==>
            var plan := PlanOn(Ask(selections, turn.limit), cursors, i, c);
            sizes(LimitOf(plan.calls, plan.limits, key)))
  }

  lemma {:induction false} PageReadsOn(turn: SearchTurn, selections: seq<Selection>, i: nat, key: string,
                                       cursor: Option<string>, s: Stream, sizes: nat -> bool, got: seq<Sim>)
    requires i < |selections| && WellFormed(Ask(selections, turn.limit)) && selections[i].cursor.None?
    requires key in StatusKeys(selections[i]) && Serves(turn, selections, i, key, s, sizes)
    requires ReadUpTo(s, StreamIn(selections[i].provider, key)(cursor), got)
    ensures var r := SearchPage(selections, i, key)(cursor, turn);
            ReadUpTo(s, LiveNext(StreamIn(selections[i].provider, key), r.next), got + Of(key, r.items))
  {
    var ask, p, cursors := Ask(selections, turn.limit), selections[i].provider, DecodeGlobal(cursor);
    var live := LiveAt(cursors, p);
    NextOfProvider(ask, cursor, turn.env, i);
    OfTag(key, key, StreamReads(ask, i, key, cursors, turn.env));
    assert got + [] == got;
    if live.At? {
      var plan := PlanOn(ask, cursors, i, live.cursor);
      ProviderPage(turn.env, selections[i], live.cursor, LimitFor(ask, cursors, i), key);
      var status := StatusLive(live, key);
      if status.At? {
        var f := Answer(turn.env, plan, status.cursor, key);
        PageExtends(s, status.cursor, LimitOf(plan.calls, plan.limits, key), f, got);
      }
    }
  }

  /** Coverage of the search. Over a run from the first page to the end, each
      (provider, status) stream whose own calls do not fail is read once, from
      start to end without gaps, whatever becomes of the other streams. */
  lemma {:induction false} RunCoversStream(selections: seq<Selection>, turns: seq<SearchTurn>, i: nat, key: string,
                                           s: Stream, sizes: nat -> bool)
    requires i < |selections| && WellFormed(Ask(selections, 0)) && selections[i].cursor.None?
    requires key in StatusKeys(selections[i]) && s.pos(None) == 0
    requires forall t | t in turns :: Serves(t, selections, i, key, s, sizes)
    ensures var j := Follow(SearchPage(selections, i, key), None, turns);
            if j.Ended? then Of(key, j.items) == s.items else Of(key, j.items) <= s.items
  {
    var step, live := SearchPage(selections, i, key), StreamIn(selections[i].provider, key);
    forall t | t in turns ensures Extends(step, t, live, key, s) {
      forall c, got | ReadUpTo(s, live(c), got) && step(c, t).Listed?
        ensures ReadUpTo(s, LiveNext(live, step(c, t).next), got + Of(key, step(c, t).items))
      {
        PageReadsOn(t, selections, i, key, c, s, sizes, got);
      }
    }
    RunReads(step, None, turns, live, key, s, []);
    var items := Follow(step, None, turns).items;
    assert [] + Of(key, items) == Of(key, items);
  }

  /** A drained status has left the nested cursor and does not come back. */
  lemma {:induction false} DrainedStaysDrained(selections: seq<Selection>, turns: seq<SearchTurn>, i: nat,
                                               key: string, cursor: Option<string>)
    requires i < |selections| && WellFormed(Ask(selections, 0)) && selections[i].cursor.None?
    requires key in StatusKeys(selections[i]) && StreamIn(selections[i].provider, key)(cursor) == Done
    requires forall t, k, c, n | t in turns :: Native(t.env.fetch(selections[i].provider, k, c, n))
    ensures Of(key, Follow(SearchPage(selections, i, key), cursor, turns).items) == []
  {
    var step, live := SearchPage(selections, i, key), StreamIn(selections[i].provider, key);
    forall t, c | t in turns && live(c) == Done && step(c, t).Listed?
      ensures Of(key, step(c, t).items) == [] && LiveNext(live, step(c, t).next) == Done
    {
      var ask, cursors := Ask(selections, t.limit), DecodeGlobal(c);
      var provider := LiveAt(cursors, selections[i].provider);
      NextOfProvider(ask, c, t.env, i);
      OfTag(key, key, StreamReads(ask, i, key, cursors, t.env));
      if provider.At? {
        ProviderPage(t.env, selections[i], provider.cursor, LimitFor(ask, cursors, i), key);
      }
    }
    DoneEmitsNothing(step, cursor, turns, live, key);
  }

  // ---------- Who failed ----------

  lemma {:induction false} KeysWhereHas(calls: seq<Call>, fails: Call -> bool, p: string)
    ensures p in KeysWhere(calls, fails) <==> exists c :: c in calls && c.key == p && fails(c)
  {
    if calls != [] {
      KeysWhereHas(calls[..|calls| - 1], fails, p);
      assert calls == calls[..|calls| - 1] + [calls[|calls| - 1]];
    }
  }

  /** Some live status of the selection is answered with a failure. */
  lemma {:induction false} StatusFailsIff(env: SearchEnv, plan: Plan, cursor: Option<string>, keys: seq<string>)
    requires |plan.calls| == |plan.limits| && plan.calls == StatusCalls(cursor, keys) && NoRepeats(keys)
    ensures SomeStatusFails(env, plan) <==>
            exists k :: k in keys && StatusLive(At(cursor), k).At?
                        && Answer(env, plan, StatusLive(At(cursor), k).cursor, k).Failed?
  {
    var fetch, ones := StatusFetch(env, plan), Ones(|plan.calls|);
    StatusCallsFacts(cursor, keys);
    if SomeStatusFails(env, plan) {
      var k :| k in FailedKeys(fetch, plan.calls, ones);
      FailedKeysHas(fetch, plan.calls, ones, k);
      var j :| 0 <= j < |plan.calls| && plan.calls[j].key == k
               && fetch(plan.calls[j].key, plan.calls[j].cursor, ones[j]).Failed?;
      assert plan.calls[j] in plan.calls;
    }
    if k :| k in keys && StatusLive(At(cursor), k).At?
            && Answer(env, plan, StatusLive(At(cursor), k).cursor, k).Failed? {
      var j :| 0 <= j < |plan.calls| && plan.calls[j] == Call(k, StatusLive(At(cursor), k).cursor);
      assert ones[j] == 1;
      FailedKeysHas(fetch, plan.calls, ones, k);
    }
  }

  /** The cursor that a selection sends: its own, or the one that is left of the provider. */
  function SentCursor(sel: Selection, live: Option<string>): Option<string> {
    if sel.cursor.Some? then sel.cursor else live
  }

  /** The provider of the selection cannot be set up, or one of its statuses is
      answered with a failure. */
  ghost predicate SelectionFails(ask: Ask, cursors: CursorMap, env: SearchEnv, i: nat)
    requires i < |ask.selections|
  {
    var sel := ask.selections[i];
    var live := LiveAt(cursors, sel.provider);
    live.At?
    && (env.setup(sel.provider).SetupFails?
        || (env.setup(sel.provider).Ready?
            && exists k :: k in StatusKeys(sel)
                           && var status, plan := StatusLive(At(SentCursor(sel, live.cursor)), k),
                                                  PlanOn(ask, cursors, i, live.cursor);
                              status.At? && Answer(env, plan, status.cursor, k).Failed?))
  }

  /** A page reports exactly the providers whose selections fail. */
  lemma {:induction false} SearchFailedIff(ask: Ask, cursors: CursorMap, env: SearchEnv, i: nat)
    requires WellFormed(ask) && i < |ask.selections|
    ensures ask.selections[i].provider in SearchFailed(ask, cursors, env) <==> SelectionFails(ask, cursors, env, i)
  {
    var sel, calls := ask.selections[i], SearchCalls(ask, cursors, env);
    var p, live := sel.provider, LiveAt(cursors, sel.provider);
    ProvidersDifferIn(ask);
    assert Providers(ask.selections)[i] == p;
    CallsFacts(Composite(ask, cursors, env), cursors, Providers(ask.selections));
    assert Composite(ask, cursors, env).setup(p) == env.setup(p);
    IndexOfProvider(ask, i);
    KeysWhereHas(calls, FailsOn(ask, cursors, env), p);
    if live.At? && env.setup(p).Ready? {
      StatusKeysDiffer(sel);
      StatusFailsIff(env, PlanOn(ask, cursors, i, live.cursor), SentCursor(sel, live.cursor), StatusKeys(sel));
      assert ProviderFails(ask, cursors, env, Call(p, live.cursor)) ==
             SomeStatusFails(env, PlanOn(ask, cursors, i, live.cursor));
    }
  }

  // ---------- Selections with a cursor of their own ----------

  /** A selection with a cursor of its own sends that one on every page, whatever
      the global cursor says of the provider. */
  lemma {:induction false} OwnCursorReads(ask: Ask, i: nat, key: string, cursors: CursorMap, env: SearchEnv)
    requires i < |ask.selections| && ask.selections[i].cursor.Some? && key in StatusKeys(ask.selections[i])
    requires LiveAt(cursors, ask.selections[i].provider).At? && env.setup(ask.selections[i].provider).Ready?
    ensures var sel := ask.selections[i];
            StreamReads(ask, i, key, cursors, env) ==
              ReadFor(env, PlanOn(ask, cursors, i, sel.cursor), StatusLive(At(sel.cursor), key), key)
  {
    var sel := ask.selections[i];
    StatusKeysDiffer(sel);
    StatusOutcome(env, PlanOn(ask, cursors, i, sel.cursor), sel.cursor, StatusKeys(sel), key);
  }

  /** There is always more at this cursor: every answer to it has a next cursor. */
  ghost predicate AlwaysMore(env: SearchEnv, p: string, key: string, live: Live) {
    && env.setup(p).Ready? && live.At? && (forall k, c, n :: Native(env.fetch(p, k, c, n)))
    && forall n: nat :: var f := env.fetch(p, key, live.cursor, n); f.Page? && f.next.Some?
  }

  lemma {:induction false} OwnCursorGoesOn(ask: Ask, i: nat, key: string, cursor: Option<string>, env: SearchEnv)
    requires WellFormed(ask) && i < |ask.selections| && ask.selections[i].cursor.Some?
    requires key in StatusKeys(ask.selections[i]) && LiveAt(DecodeGlobal(cursor), ask.selections[i].provider).At?
    requires AlwaysMore(env, ask.selections[i].provider, key, StatusLive(At(ask.selections[i].cursor), key))
    ensures SearchNext(ask, cursor, env).Some?
    ensures LiveAt(DecodeGlobal(SearchNext(ask, cursor, env)), ask.selections[i].provider).At?
  {
    var sel := ask.selections[i];
    var live := LiveAt(DecodeGlobal(cursor), sel.provider);
    var plan := PlanOn(ask, DecodeGlobal(cursor), i, live.cursor);
    StatusKeysDiffer(sel);
    StatusOutcome(env, plan, sel.cursor, StatusKeys(sel), key);
    PackedPage(env, plan, sel.cursor, StatusKeys(sel), key);
    assert After(Answer(env, plan, StatusLive(At(sel.cursor), key).cursor, key)).At?;
    NextOfProvider(ask, cursor, env, i);
  }

  /** So if there is more at that cursor, the search reads the same page again and
      again, and never ends. */
  lemma {:induction false} OwnCursorNeverEnds(selections: seq<Selection>, turns: seq<SearchTurn>, i: nat, key: string)
    requires i < |selections| && WellFormed(Ask(selections, 0)) && selections[i].cursor.Some?
    requires key in StatusKeys(selections[i])
    requires forall t | t in turns ::
               AlwaysMore(t.env, selections[i].provider, key, StatusLive(At(selections[i].cursor), key))
    ensures Follow(SearchPage(selections, i, key), None, turns).Unfinished?
  {
    var step := SearchPage(selections, i, key);
    var live := (c: Option<string>) => LiveAt(DecodeGlobal(c), selections[i].provider).At?;
    forall t, c | t in turns && live(c)
      ensures step(c, t).Listed? && step(c, t).next.Some? && live(step(c, t).next)
    {
      OwnCursorGoesOn(Ask(selections, t.limit), i, key, c, t.env);
    }
    RunGoesOn(step, None, turns, live);
  }

  // ---------- Termination ----------

  /** A stream after a page: where the provider's answer leaves it, or through. */
  lemma {:induction false} StreamStep(ask: Ask, i: nat, key: string, cursor: Option<string>, env: SearchEnv)
    requires WellFormed(ask) && i < |ask.selections| && ask.selections[i].cursor.None?
    requires key in StatusKeys(ask.selections[i])
    requires forall k, c, n :: Native(env.fetch(ask.selections[i].provider, k, c, n))
    ensures var p := ask.selections[i].provider;
            var provider, live := LiveAt(DecodeGlobal(cursor), p), StreamIn(p, key)(cursor);
            LiveNext(StreamIn(p, key), SearchNext(ask, cursor, env)) ==
              if live.At? && env.setup(p).Ready?
              then After(Answer(env, PlanOn(ask, DecodeGlobal(cursor), i, provider.cursor), live.cursor, key)) else Done
  {
    var p, cursors := ask.selections[i].provider, DecodeGlobal(cursor);
    var provider := LiveAt(cursors, p);
    NextOfProvider(ask, cursor, env, i);
    if provider.At? {
      ProviderPage(env, ask.selections[i], provider.cursor, LimitFor(ask, cursors, i), key);
    }
  }

  /** A provider that goes on has a live status. */
  lemma {:induction false} SomeStatusIsLive(env: SearchEnv, sel: Selection, cursor: Option<string>, limit: nat)
    requires sel.cursor.None? && forall k, c, n :: Native(env.fetch(sel.provider, k, c, n))
    requires ProviderNext(env, sel, PlanFor(sel, cursor, limit)).Some?
    ensures var next := LiveOf(ProviderNext(env, sel, PlanFor(sel, cursor, limit)));
            exists key :: key in StatusKeys(sel) && StatusLive(next, key).At?
  {
    var plan, keys := PlanFor(sel, cursor, limit), StatusKeys(sel);
    var next := StatusNext(env, plan);
    assert next != [];
    StatusKeysDiffer(sel);
    StatusCallsFacts(cursor, keys);
    NextHas(StatusFetch(env, plan), plan.calls, Ones(|plan.calls|), next[0]);
    var j :| 0 <= j < |plan.calls| && plan.calls[j].key == next[0].key;
    assert plan.calls[j] in plan.calls;
    var key := next[0].key;
    NextIsDistinct(StatusFetch(env, plan), plan.calls, Ones(|plan.calls|));
    ToMapHas(next, key, next[0].value);
    PackedPage(env, plan, cursor, keys, key);
  }

  lemma {:induction false} HeadIsLive(dict: Dict)
    requires Distinct(dict) && dict != []
    ensures LiveAt(Some(ToMap(dict)), dict[0].key).At?
  {
    ToMapHas(dict, dict[0].key, dict[0].value);
  }

  lemma {:induction false} HeadIsProvider(ask: Ask, cursors: CursorMap, env: SearchEnv)
    requires WellFormed(ask) && SearchDict(ask, cursors, env) != []
    ensures exists i :: 0 <= i < |ask.selections| && ask.selections[i].provider == SearchDict(ask, cursors, env)[0].key
  {
    var dict, calls := SearchDict(ask, cursors, env), SearchCalls(ask, cursors, env);
    ProvidersDifferIn(ask);
    CallsFacts(Composite(ask, cursors, env), cursors, Providers(ask.selections));
    NextHas(ProviderFetch(ask, cursors, env), calls, Ones(|calls|), dict[0]);
    var j :| 0 <= j < |calls| && calls[j].key == dict[0].key;
    assert calls[j] in calls;
    var i :| 0 <= i < |ask.selections| && Providers(ask.selections)[i] == dict[0].key;
    assert ask.selections[i].provider == dict[0].key;
  }

  /** So a next cursor means that some provider is live. */
  lemma {:induction false} SomeProviderIsLive(ask: Ask, cursors: CursorMap, env: SearchEnv)
    requires WellFormed(ask) && EncodeGlobal(SearchDict(ask, cursors, env)).Some?
    ensures exists i :: 0 <= i < |ask.selections|
                        && LiveAt(Some(ToMap(SearchDict(ask, cursors, env))), ask.selections[i].provider).At?
  {
    DictIsEncodable(ask, cursors, env);
    HeadIsProvider(ask, cursors, env);
    HeadIsLive(SearchDict(ask, cursors, env));
  }

  lemma {:induction false} LiveProviderHasStream(ask: Ask, cursor: Option<string>, env: SearchEnv, i: nat)
    requires WellFormed(ask) && i < |ask.selections| && ask.selections[i].cursor.None?
    requires forall p, k, c, n :: Native(env.fetch(p, k, c, n))
    requires LiveAt(Some(ToMap(SearchDict(ask, DecodeGlobal(cursor), env))), ask.selections[i].provider).At?
    ensures exists key :: key in StatusKeys(ask.selections[i])
                          && LiveNext(StreamIn(ask.selections[i].provider, key), SearchNext(ask, cursor, env)).At?
  {
    var cursors, p := DecodeGlobal(cursor), ask.selections[i].provider;
    DictOfProvider(ask, cursors, env, i);
    NextOfProvider(ask, cursor, env, i);
    SomeStatusIsLive(env, ask.selections[i], LiveAt(cursors, p).cursor, LimitFor(ask, cursors, i));
  }

  /** And with it some stream. */
  lemma {:induction false} SomeStreamIsLive(ask: Ask, cursor: Option<string>, env: SearchEnv)
    requires WellFormed(ask) && (forall sel | sel in ask.selections :: sel.cursor.None?)
    requires forall p, k, c, n :: Native(env.fetch(p, k, c, n))
    requires SearchNext(ask, cursor, env).Some?
    ensures exists i, key :: 0 <= i < |ask.selections| && key in StatusKeys(ask.selections[i])
                             && LiveNext(StreamIn(ask.selections[i].provider, key), SearchNext(ask, cursor, env)).At?
  {
    var cursors := DecodeGlobal(cursor);
    SomeProviderIsLive(ask, cursors, env);
    var i :| 0 <= i < |ask.selections|
             && LiveAt(Some(ToMap(SearchDict(ask, cursors, env))), ask.selections[i].provider).At?;
    LiveProviderHasStream(ask, cursor, env, i);
  }

  /** Every call gets on in its stream, or fails. */
  ghost predicate Moves(turn: SearchTurn, selections: seq<Selection>, streams: (nat, string) -> Stream) {
    && (forall p, k, c, n :: Native(turn.env.fetch(p, k, c, n)))
    && forall i: nat, key, c, n: nat |
         i < |selections| && key in StatusKeys(selections[i]) && OnTrack(streams(i, key), At(c)) ::
         MovesOn(streams(i, key), c, turn.env.fetch(selections[i].provider, key, c, n))
  }

  /** Every stream is on track and at most n pages from its end. */
  ghost predicate Within(selections: seq<Selection>, streams: (nat, string) -> Stream, cursor: Option<string>, n: nat) {
    forall i: nat, key | i < |selections| && key in StatusKeys(selections[i]) ::
      var live := StreamIn(selections[i].provider, key)(cursor);
      OnTrack(streams(i, key), live) && Remaining(streams(i, key), live) <= n
  }

  /** Every live stream is read on every page, so all of them get closer to their end. */
  lemma {:induction false} PageGetsOn(ask: Ask, cursor: Option<string>, env: SearchEnv,
                                      streams: (nat, string) -> Stream, n: nat)
    requires WellFormed(ask) && (forall sel | sel in ask.selections :: sel.cursor.None?)
    requires Moves(SearchTurn(ask.limit, env), ask.selections, streams) && Within(ask.selections, streams, cursor, n)
    requires SearchNext(ask, cursor, env).Some?
    ensures n >= 2 && Within(ask.selections, streams, SearchNext(ask, cursor, env), n - 1)
  {
    var next := SearchNext(ask, cursor, env);
    forall i: nat, key | i < |ask.selections| && key in StatusKeys(ask.selections[i])
      ensures var live := StreamIn(ask.selections[i].provider, key)(next);
              OnTrack(streams(i, key), live) && (live.At? ==> Remaining(streams(i, key), live) < n)
    {
      assert ask.selections[i] in ask.selections;
      StreamStep(ask, i, key, cursor, env);
      var live := StreamIn(ask.selections[i].provider, key)(cursor);
      assert OnTrack(streams(i, key), live) && Remaining(streams(i, key), live) <= n;
    }
    SomeStreamIsLive(ask, cursor, env);
  }

  /** The search ends: as soon as the longest of the streams is through, when every
      call gets on in its stream or fails. */
  lemma {:induction false} SearchTerminates(selections: seq<Selection>, turns: seq<SearchTurn>, i: nat, key: string,
                                            streams: (nat, string) -> Stream, n: nat)
    requires i < |selections| && WellFormed(Ask(selections, 0)) && forall sel | sel in selections :: sel.cursor.None?
    requires forall t | t in turns :: Moves(t, selections, streams)
    requires forall j: nat, k | j < |selections| && k in StatusKeys(selections[j]) ::
               streams(j, k).pos(None) == 0 && |streams(j, k).items| < n
    requires 0 < n <= |turns|
    ensures Follow(SearchPage(selections, i, key), None, turns).Ended?
  {
    var step := SearchPage(selections, i, key);
    var within := (c: Option<string>, m: nat) => Within(selections, streams, c, m);
    forall t, c, m: nat | t in turns && within(c, m) && step(c, t).Listed? && step(c, t).next.Some?
      ensures m >= 2 && within(step(c, t).next, m - 1)
    {
      PageGetsOn(Ask(selections, t.limit), c, t.env, streams, m);
    }
    RunEndsWithin(step, None, turns, within, n);
    RunIsNotAborted(step, None, turns);
  }

  // ---------- The search as it runs ----------

  /** Items of calls that are all made, one more at a time. */
  lemma AskedStep(fetch: Fetcher, calls: seq<Call>, k: nat)
    requires k < |calls|
    ensures var f, c := fetch(calls[k].key, calls[k].cursor, 1), calls[..k];
            Items(fetch, calls[..k + 1], Ones(k + 1)) ==
              Items(fetch, c, Ones(k)) + Tag(calls[k].key, if f.Page? then f.items else [])
            && Next(fetch, calls[..k + 1], Ones(k + 1)) == Next(fetch, c, Ones(k)) +
                 if f.Page? && f.next.Some? then [Member(calls[k].key, f.next)] else []
  {
    assert calls[..k + 1][..k] == calls[..k] && Ones(k + 1)[..k] == Ones(k);
    NothingCarried(calls[..k + 1]);
    NothingCarried(calls[..k]);
    assert [] + Advanced(fetch, calls[..k], Ones(k)) == Advanced(fetch, calls[..k], Ones(k));
    assert [] + Advanced(fetch, calls[..k + 1], Ones(k + 1)) == Advanced(fetch, calls[..k + 1], Ones(k + 1));
  }

  lemma {:induction false} NothingCarried(calls: seq<Call>)
    ensures Carried(calls, Ones(|calls|)) == []
  {
    if calls != [] {
      var n := |calls| - 1;
      assert Ones(n + 1)[..n] == Ones(n);
      NothingCarried(calls[..n]);
    }
  }

  lemma {:induction false} KeptSimsConcat(env: SearchEnv, provider: string, a: seq<Item>, b: seq<Item>)
    ensures KeptSims(env, provider, a + b) == KeptSims(env, provider, a) + KeptSims(env, provider, b)
  {
    if b == [] {
      assert a + b == a;
    } else {
      assert (a + b)[..|a + b| - 1] == a + b[..|b| - 1];
      KeptSimsConcat(env, provider, a, b[..|b| - 1]);
    }
  }

  function FoundIn(env: SearchEnv, plan: Plan, k: nat): seq<Item>
    requires |plan.calls| == |plan.limits| && k <= |plan.calls|
  {
    Items(StatusFetch(env, plan), plan.calls[..k], Ones(k))
  }

  function NextIn(env: SearchEnv, plan: Plan, k: nat): Dict
    requires |plan.calls| == |plan.limits| && k <= |plan.calls|
  {
    Next(StatusFetch(env, plan), plan.calls[..k], Ones(k))
  }

  lemma {:induction false} ProviderStep(env: SearchEnv, plan: Plan, k: nat)
    requires |plan.calls| == |plan.limits| && k < |plan.calls| && DistinctKeys(plan.calls)
    ensures var call := plan.calls[k];
            var f := env.fetch(plan.provider, call.key, call.cursor, plan.limits[k]);
            var tagged := Tag(call.key, if f.Page? then f.items else []);
            KeptSims(env, plan.provider, FoundIn(env, plan, k + 1)) ==
              KeptSims(env, plan.provider, FoundIn(env, plan, k)) + KeptSims(env, plan.provider, tagged)
            && NextIn(env, plan, k + 1) == NextIn(env, plan, k) +
                 if f.Page? && f.next.Some? then [Member(call.key, f.next)] else []
  {
    var call := plan.calls[k];
    LimitOfCall(plan.calls, plan.limits, k);
    AskedStep(StatusFetch(env, plan), plan.calls, k);
    var f := Answer(env, plan, call.cursor, call.key);
    assert StatusFetch(env, plan)(call.key, call.cursor, 1) == f;
    KeptSimsConcat(env, plan.provider, FoundIn(env, plan, k), Tag(call.key, if f.Page? then f.items else []));
  }

  function FailedIn(env: SearchEnv, plan: Plan, k: nat): bool
    requires |plan.calls| == |plan.limits| && k <= |plan.calls|
  {
    FailedKeys(StatusFetch(env, plan), plan.calls[..k], Ones(k)) != {}
  }

  lemma {:induction false} FailedStep(env: SearchEnv, plan: Plan, k: nat)
    requires |plan.calls| == |plan.limits| && k < |plan.calls| && DistinctKeys(plan.calls)
    ensures var call := plan.calls[k];
            FailedIn(env, plan, k + 1) <==>
            FailedIn(env, plan, k) || env.fetch(plan.provider, call.key, call.cursor, plan.limits[k]).Failed?
  {
    assert plan.calls[..k + 1][..k] == plan.calls[..k] && Ones(k + 1)[..k] == Ones(k);
    LimitOfCall(plan.calls, plan.limits, k);
    if env.fetch(plan.provider, plan.calls[k].key, plan.calls[k].cursor, plan.limits[k]).Failed? {
      assert plan.calls[k].key in FailedKeys(StatusFetch(env, plan), plan.calls[..k + 1], Ones(k + 1));
    }
  }

  /** One provider: ask every live status, keep what passes the filter, collect
      the cursors that came back. */
  method SearchProvider(env: SearchEnv, many: bool, plan: Plan)
    returns (sims: seq<Sim>, next: Option<string>, failed: bool)
    requires |plan.calls| == |plan.limits| && DistinctKeys(plan.calls)
    ensures sims == KeptSims(env, plan.provider, StatusReads(env, plan))
    ensures next == Pack(many, StatusNext(env, plan)) && failed == SomeStatusFails(env, plan)
  {
    sims, failed := [], false;
    var cursors: Dict := [];
    for k := 0 to |plan.calls|
      invariant sims == KeptSims(env, plan.provider, FoundIn(env, plan, k))
      invariant cursors == NextIn(env, plan, k) && failed == FailedIn(env, plan, k)
    {
      ProviderStep(env, plan, k);
      FailedStep(env, plan, k);
      var call := plan.calls[k];
      match env.fetch(plan.provider, call.key, call.cursor, plan.limits[k]) {
        case Failed => failed := true;
        case Page(found, c) =>
          sims := sims + KeptSims(env, plan.provider, Tag(call.key, found));
          if c.Some? { cursors := cursors + [Member(call.key, c)]; }
      }
    }
    assert plan.calls[..|plan.calls|] == plan.calls;
    next := Pack(many, cursors);
  }

  /** Append what has not been seen on this page. */
  method AddUnseen(items: seq<Item>, ghost before: seq<Item>, more: seq<Item>) returns (r: seq<Item>)
    requires items == Dedupe(before)
    ensures r == Dedupe(before + more)
  {
    r := items;
    assert before + more[..0] == before;
    for k := 0 to |more|
      invariant r == Dedupe(before + more[..k])
    {
      ghost var all := before + more[..k + 1];
      assert all[..|all| - 1] == before + more[..k] && all[|all| - 1] == more[k];
      if more[k] !in r { r := r + [more[k]]; }
    }
    assert more[..|more|] == more;
  }

  lemma {:induction false} KeysWhereStep(calls: seq<Call>, fails: Call -> bool, k: nat)
    requires k < |calls|
    ensures KeysWhere(calls[..k + 1], fails) ==
              KeysWhere(calls[..k], fails) + if fails(calls[k]) then {calls[k].key} else {}
  {
    assert calls[..k + 1][..k] == calls[..k];
  }

  method RunProvider(ask: Ask, cursors: CursorMap, env: SearchEnv, calls: seq<Call>, k: nat)
    returns (sims: seq<Sim>, next: Option<string>, failed: bool)
    requires WellFormed(ask) && k < |calls| && calls == SearchCalls(ask, cursors, env)
    ensures ProviderFetch(ask, cursors, env)(calls[k].key, calls[k].cursor, 1) == Page(sims, next)
    ensures failed == FailsOn(ask, cursors, env)(calls[k])
  {
    var i := IndexOf(ask.selections, calls[k].key);
    ProvidersDifferIn(ask);
    CallsFacts(Composite(ask, cursors, env), cursors, Providers(ask.selections));
    assert calls[k] in calls && calls[k].key in Providers(ask.selections);
    var sel := ask.selections[i];
    var plan := PlanOn(ask, cursors, i, calls[k].cursor);
    StatusKeysDiffer(sel);
    StatusCallsFacts(if sel.cursor.Some? then sel.cursor else calls[k].cursor, StatusKeys(sel));
    sims, next, failed := SearchProvider(env, |StatusKeys(sel)| > 1, plan);
  }

  /** One more provider: its SIMs as far as they are new, its cursor, its failure. */
  method NextProvider(ask: Ask, cursors: CursorMap, env: SearchEnv, calls: seq<Call>, k: nat, items: seq<Item>,
                      dict: Dict, failed: set<string>)
    returns (moreItems: seq<Item>, moreDict: Dict, moreFailed: set<string>)
    requires WellFormed(ask) && k < |calls| && calls == SearchCalls(ask, cursors, env)
    requires items == Dedupe(Items(ProviderFetch(ask, cursors, env), calls[..k], Ones(k)))
    requires dict == Next(ProviderFetch(ask, cursors, env), calls[..k], Ones(k))
    requires failed == KeysWhere(calls[..k], FailsOn(ask, cursors, env))
    ensures moreItems == Dedupe(Items(ProviderFetch(ask, cursors, env), calls[..k + 1], Ones(k + 1)))
    ensures moreDict == Next(ProviderFetch(ask, cursors, env), calls[..k + 1], Ones(k + 1))
    ensures moreFailed == KeysWhere(calls[..k + 1], FailsOn(ask, cursors, env))
  {
    ghost var fetch := ProviderFetch(ask, cursors, env);
    AskedStep(fetch, calls, k);
    KeysWhereStep(calls, FailsOn(ask, cursors, env), k);
    var sims, c, fails := RunProvider(ask, cursors, env, calls, k);
    moreItems := AddUnseen(items, Items(fetch, calls[..k], Ones(k)), Tag(calls[k].key, sims));
    moreDict := if c.Some? then dict + [Member(calls[k].key, c)] else dict;
    moreFailed := if fails then failed + {calls[k].key} else failed;
  }

  method SearchViaProviderFilters(cursor: Option<string>, ask: Ask, env: SearchEnv)
    returns (items: seq<Item>, next: Option<string>, failed: set<string>)
    requires WellFormed(ask)
    ensures items == SearchItems(ask, DecodeGlobal(cursor), env) && next == SearchNext(ask, cursor, env)
    ensures failed == SearchFailed(ask, DecodeGlobal(cursor), env)
  {
    var cursors := DecodeGlobal(cursor);
    var calls, setupFailed := CollectCalls(cursors, Composite(ask, cursors, env), Providers(ask.selections));
    items, failed := [], {};
    var dict: Dict := [];
    for k := 0 to |calls|
      invariant items == Dedupe(Items(ProviderFetch(ask, cursors, env), calls[..k], Ones(k)))
      invariant dict == Next(ProviderFetch(ask, cursors, env), calls[..k], Ones(k))
      invariant failed == KeysWhere(calls[..k], FailsOn(ask, cursors, env))
    {
      items, dict, failed := NextProvider(ask, cursors, env, calls, k, items, dict, failed);
    }
    assert calls[..|calls|] == calls;
    next := EncodeGlobal(dict);
    failed := setupFailed + failed;
  }

  /** A SIM a provider's call emits is shown. */
  lemma EmittedIsShown(ask: Ask, cursors: CursorMap, env: SearchEnv, j: nat, sim: Sim)
    requires WellFormed(ask) && j < |SearchCalls(ask, cursors, env)|
    requires var call := SearchCalls(ask, cursors, env)[j];
             sim in Of(call.key, Items(ProviderFetch(ask, cursors, env), SearchCalls(ask, cursors, env),
                                       Ones(|SearchCalls(ask, cursors, env)|)))
    ensures Item(SearchCalls(ask, cursors, env)[j].key, sim) in SearchItems(ask, cursors, env)
  {
    var calls, fetch := SearchCalls(ask, cursors, env), ProviderFetch(ask, cursors, env);
    OfMember(calls[j].key, Items(fetch, calls, Ones(|calls|)), sim);
    DedupeFacts(Items(fetch, calls, Ones(|calls|)));
  }

  /** No SIM is shown twice for a provider. */
  lemma NothingShownTwice(ask: Ask, cursors: CursorMap, env: SearchEnv)
    requires WellFormed(ask)
    ensures NoRepeats(SearchItems(ask, cursors, env))
  {
    var calls := SearchCalls(ask, cursors, env);
    DedupeFacts(Items(ProviderFetch(ask, cursors, env), calls, Ones(|calls|)));
  }

  /** Every SIM a stream read on a page and its filter keeps is shown on that page. */
  lemma SearchShowsReads(ask: Ask, cursors: CursorMap, env: SearchEnv, i: nat, key: string, sim: Sim)
    requires WellFormed(ask) && i < |ask.selections|
    requires sim in StreamReads(ask, i, key, cursors, env) && env.keep(ask.selections[i].provider, key, sim)
    ensures Item(ask.selections[i].provider, sim) in SearchItems(ask, cursors, env)
  {
    var p, calls, fetch := ask.selections[i].provider, SearchCalls(ask, cursors, env), ProviderFetch(ask, cursors, env);
    var live := LiveAt(cursors, p);
    var plan := PlanOn(ask, cursors, i, live.cursor);
    ProvidersDifferIn(ask);
    CallsFacts(Composite(ask, cursors, env), cursors, Providers(ask.selections));
    assert Composite(ask, cursors, env).setup(p) == env.setup(p) && Providers(ask.selections)[i] == p;
    var j :| 0 <= j < |calls| && calls[j] == Call(p, live.cursor);
    AskedCall(fetch, calls, j);
    IndexOfProvider(ask, i);
    OfMember(key, StatusReads(env, plan), sim);
    KeptMember(env, p, StatusReads(env, plan), Item(key, sim));
    EmittedIsShown(ask, cursors, env, j, sim);
  }

  lemma {:induction false} KeptOnly(env: SearchEnv, p: string, found: seq<Item>, sim: Sim)
    requires sim in KeptSims(env, p, found)
    ensures exists x :: x in found && x.sim == sim && env.keep(p, x.key, sim)
  {
    var n := |found| - 1;
    assert found == found[..n] + [found[n]];
    if sim in KeptSims(env, p, found[..n]) {
      KeptOnly(env, p, found[..n], sim);
    } else {
      assert found[n] in found && found[n].sim == sim;
    }
  }

  /** A SIM that is shown for a provider came with the provider's call. */
  lemma {:induction false} ShownCameWithCall(ask: Ask, cursors: CursorMap, env: SearchEnv, p: string, sim: Sim)
    requires WellFormed(ask) && Item(p, sim) in SearchItems(ask, cursors, env)
    ensures exists i :: 0 <= i < |ask.selections| && ask.selections[i].provider == p
                        && LiveAt(cursors, p).At? && env.setup(p).Ready?
                        && sim in KeptSims(env, p, StatusReads(env, PlanOn(ask, cursors, i, LiveAt(cursors, p).cursor)))
  {
    var calls, fetch := SearchCalls(ask, cursors, env), ProviderFetch(ask, cursors, env);
    DedupeFacts(Items(fetch, calls, Ones(|calls|)));
    OfMember(p, Items(fetch, calls, Ones(|calls|)), sim);
    ProvidersDifferIn(ask);
    CallsFacts(Composite(ask, cursors, env), cursors, Providers(ask.selections));
    if forall j | 0 <= j < |calls| :: calls[j].key != p { NoItemsWithoutCall(fetch, calls, Ones(|calls|), p); }
    var j :| 0 <= j < |calls| && calls[j].key == p;
    assert calls[j] in calls;
    AskedCall(fetch, calls, j);
    var i :| 0 <= i < |ask.selections| && Providers(ask.selections)[i] == p;
    IndexOfProvider(ask, i);
  }

  lemma {:induction false} ShownWasRead(ask: Ask, cursors: CursorMap, env: SearchEnv, p: string, sim: Sim)
    requires WellFormed(ask) && Item(p, sim) in SearchItems(ask, cursors, env)
    ensures exists i, key :: 0 <= i < |ask.selections| && ask.selections[i].provider == p
                             && sim in StreamReads(ask, i, key, cursors, env) && env.keep(p, key, sim)
  {
    ShownCameWithCall(ask, cursors, env, p, sim);
    var i :| 0 <= i < |ask.selections| && ask.selections[i].provider == p
             && sim in KeptSims(env, p, StatusReads(env, PlanOn(ask, cursors, i, LiveAt(cursors, p).cursor)));
    var found := StatusReads(env, PlanOn(ask, cursors, i, LiveAt(cursors, p).cursor));
    KeptOnly(env, p, found, sim);
    var x :| x in found && x.sim == sim && env.keep(p, x.key, sim);
    OfMember(x.key, found, sim);
    assert sim in StreamReads(ask, i, x.key, cursors, env);
  }

  /** A page shows exactly what its streams read and the filter keeps. */
  lemma {:induction false} SearchShowsIff(ask: Ask, cursors: CursorMap, env: SearchEnv, p: string, sim: Sim)
    requires WellFormed(ask)
    ensures Item(p, sim) in SearchItems(ask, cursors, env) <==>
            exists i, key :: 0 <= i < |ask.selections| && ask.selections[i].provider == p
                             && sim in StreamReads(ask, i, key, cursors, env) && env.keep(p, key, sim)
  {
    if Item(p, sim) in SearchItems(ask, cursors, env) { ShownWasRead(ask, cursors, env, p, sim); }
    if i, key :| 0 <= i < |ask.selections| && ask.selections[i].provider == p
                 && sim in StreamReads(ask, i, key, cursors, env) && env.keep(p, key, sim) {
      SearchShowsReads(ask, cursors, env, i, key, sim);
    }
  }

  lemma {:induction false} KeptMember(env: SearchEnv, p: string, found: seq<Item>, x: Item)
    requires x in found && env.keep(p, x.key, x.sim)
    ensures x.sim in KeptSims(env, p, found)
  {
    var n := |found| - 1;
    assert found == found[..n] + [found[n]];
    if x in found[..n] { KeptMember(env, p, found[..n], x); }
  }
}
