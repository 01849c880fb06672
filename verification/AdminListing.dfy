/** The admin listing: the same fan-out over all active credentials, with a
    cursor that cannot hold None. */
module AdminListing {
  import opened Option
  import opened Cursors
  import opened Paging
  import opened FanOut
  import opened Runs
  import opened Listing
  import opened Unique

  /** What one page reads from the credentials, in the order of `keys`. */
  function AdminPage(keys: seq<string>): (Option<string>, Turn) -> Result {
    (cursor, turn: Turn) =>
      var cursors, page := DecodeAdmin(cursor), PageLimit(turn.limit);
      Listed(PageItems(turn.env, cursors, keys, page),
             EncodeAdmin(PageNext(turn.env, cursors, keys, page)),
             PageFailed(turn.env, cursors, keys, page))
  }

  function Passing(keep: Sim -> bool, items: seq<Item>): seq<Item> {
    if items == [] then []
    else
      var n := |items| - 1;
      Passing(keep, items[..n]) + if keep(items[n].sim) then [items[n]] else []
  }

  /** What of it is shown: what passes the filter, each SIM of a credential once. */
  function Shown(keep: Sim -> bool, items: seq<Item>): seq<Item> { Dedupe(Passing(keep, items)) }

  /** Filtering and de-duplicating loses no SIM that passes, and repeats none. */
  lemma ShownFacts(keep: Sim -> bool, items: seq<Item>)
    ensures NoRepeats(Shown(keep, items))
    ensures forall x :: x in Shown(keep, items) <==> x in items && keep(x.sim)
  {
    PassingFacts(keep, items);
    DedupeFacts(Passing(keep, items));
  }

  lemma {:induction false} PassingFacts(keep: Sim -> bool, items: seq<Item>)
    ensures forall x :: x in Passing(keep, items) <==> x in items && keep(x.sim)
  {
    if items != [] {
      PassingFacts(keep, items[..|items| - 1]);
      assert items == items[..|items| - 1] + [items[|items| - 1]];
    }
  }

  lemma ShownStep(keep: Sim -> bool, items: seq<Item>)
    requires items != []
    ensures var front, last := items[..|items| - 1], items[|items| - 1];
            Shown(keep, items) ==
              Shown(keep, front) + if keep(last.sim) && last !in Shown(keep, front) then [last] else []
  {
    var front, last := items[..|items| - 1], items[|items| - 1];
    if keep(last.sim) {
      assert (Passing(keep, front) + [last])[..|Passing(keep, front)|] == Passing(keep, front);
    } else {
      assert Passing(keep, items) == Passing(keep, front);
    }
  }

  /** The merge loop's `seen_items`. */
  method ShowItems(keep: Sim -> bool, read: seq<Item>) returns (items: seq<Item>)
    ensures items == Shown(keep, read)
  {
    items := [];
    for k := 0 to |read|
      invariant items == Shown(keep, read[..k])
    {
      assert read[..k + 1][..k] == read[..k];
      ShownStep(keep, read[..k + 1]);
      if keep(read[k].sim) && read[k] !in items { items := items + [read[k]]; }
    }
    assert read[..|read|] == read;
  }

  // ---------- What is reported ----------

  /** A provider by the key of its credential. */
  type ProviderOf = string -> string

  /** Providers whose status is settled before any call is made: a credential of
      theirs is through, cannot be listed, or cannot be set up. */
  function Settled(env: Env, cursors: CursorMap, keys: seq<string>, of: ProviderOf): set<string> {
    set k | k in keys && !(LiveAt(cursors, k).At? && env.setup(k).Ready?) :: of(k)
  }

  function ProvidersOf(keys: set<string>, of: ProviderOf): set<string> { set k | k in keys :: of(k) }

  /** The providers that a page reports as failed: a failed call only counts if its
      provider's status is not settled already. */
  function Reported(env: Env, cursors: CursorMap, keys: seq<string>, page: nat, of: ProviderOf): set<string> {
    ProvidersOf(SetupFailures(env, cursors, keys), of) +
    (ProvidersOf(FailedKeys(env.fetch, Calls(env, cursors, keys), Limits(env, cursors, keys, page)), of)
     - Settled(env, cursors, keys, of))
  }

  /** The call of this credential fails. */
  ghost predicate CallFails(env: Env, cursors: CursorMap, keys: seq<string>, page: nat, k: string) {
    Called(env, cursors, keys, page, k) && AnswerTo(env, cursors, keys, page, k).Failed?
  }

  /** A provider is reported exactly if a live credential of it cannot be set up, or
      a call of it fails and every credential of it is live and ready. */
  lemma {:induction false} ReportedIff(env: Env, cursors: CursorMap, keys: seq<string>, page: nat, of: ProviderOf,
                                       p: string)
    requires NoRepeats(keys)
    ensures p in Reported(env, cursors, keys, page, of) <==>
            || (exists k :: k in keys && of(k) == p && LiveAt(cursors, k).At? && env.setup(k).SetupFails?)
            || ((exists k :: k in keys && of(k) == p && CallFails(env, cursors, keys, page, k))
                && forall k | k in keys && of(k) == p :: LiveAt(cursors, k).At? && env.setup(k).Ready?)
  {
    var failed := FailedKeys(env.fetch, Calls(env, cursors, keys), Limits(env, cursors, keys, page));
    forall k ensures k in failed <==> CallFails(env, cursors, keys, page, k) {
      FailedCallIff(env, cursors, keys, page, k);
    }
    assert p in ProvidersOf(failed, of) <==> exists k :: k in failed && of(k) == p;
    assert p in Settled(env, cursors, keys, of) <==>
           exists k :: k in keys && of(k) == p && !(LiveAt(cursors, k).At? && env.setup(k).Ready?);
  }

  /** So a failed call goes unreported, and its page passes for complete, exactly if
      another credential of the provider is through or cannot be listed, and none
      fails to be set up. */
  lemma {:induction false} FailureIsHiddenIff(env: Env, cursors: CursorMap, keys: seq<string>, page: nat,
                                              of: ProviderOf, k: string)
    requires NoRepeats(keys) && k in keys && CallFails(env, cursors, keys, page, k)
    ensures of(k) !in Reported(env, cursors, keys, page, of) <==>
            && (exists j :: j in keys && of(j) == of(k) && (LiveAt(cursors, j).Done? || env.setup(j).NotListable?))
            && forall j | j in keys && of(j) == of(k) && LiveAt(cursors, j).At? :: !env.setup(j).SetupFails?
  {
    ReportedIff(env, cursors, keys, page, of, of(k));
  }

  /** The statuses that the first loop settles. */
  method SettleStatuses(cursors: CursorMap, env: Env, keys: seq<string>, of: ProviderOf) returns (settled: set<string>)
    ensures settled == Settled(env, cursors, keys, of)
  {
    settled := {};
    for k := 0 to |keys|
      invariant settled == Settled(env, cursors, keys[..k], of)
    {
      assert keys[..k + 1] == keys[..k] + [keys[k]];
      if (cursors.Some? && keys[k] !in cursors.value) || env.setup(keys[k]) != Ready {
        settled := settled + {of(keys[k])};
      }
    }
    assert keys[..|keys|] == keys;
  }

  /** The listing as it runs. */
  method ListViaAdminCredentials(cursor: Option<string>, limit: int, keys: seq<string>, of: ProviderOf, env: Env,
                                 keep: Sim -> bool)
    returns (items: seq<Item>, next: Option<string>, failed: set<string>)
    ensures var r := AdminPage(keys)(cursor, Turn(limit, env)); items == Shown(keep, r.items) && next == r.next
    ensures failed == Reported(env, DecodeAdmin(cursor), keys, PageLimit(limit), of)
  {
    var cursors := DecodeAdmin(cursor);
    var calls, setupFailed := CollectCalls(cursors, env, keys);
    var settled := SettleStatuses(cursors, env, keys, of);
    var limits := CallLimits(PageLimit(limit), |calls|);
    var carried, active, shares := SplitCalls(calls, limits);
    ActiveAgrees(env.fetch, calls, limits);
    var read, advanced, callFailed := MergeResults(env.fetch, active, shares);
    items := ShowItems(keep, read);
    next := EncodeAdmin(carried + advanced);
    failed := ProvidersOf(setupFailed, of) + (ProvidersOf(callFailed, of) - settled);
  }

  // ---------- Runs ----------

  function LiveIn(key: string): Option<string> -> Live {
    cursor => LiveAt(DecodeAdmin(cursor), key)
  }

  /** A None entry does not survive the encoding. */
  function Kept(live: Live): Live {
    if live.At? && live.cursor.None? then Done else live
  }

  /** The next cursor, decoded again, leaves a credential where the page's
      dictionary did, unless the dictionary said None. */
  lemma NextCursorDecodes(keys: seq<string>, cursor: Option<string>, turn: Turn, key: string)
    requires NoRepeats(keys)
    ensures LiveNext(LiveIn(key), AdminPage(keys)(cursor, turn).next)
         == Kept(LiveAt(Some(ToMap(PageNext(turn.env, DecodeAdmin(cursor), keys, PageLimit(turn.limit)))), key))
  {
    var next := PageNext(turn.env, DecodeAdmin(cursor), keys, PageLimit(turn.limit));
    NextIsEncodable(turn.env, DecodeAdmin(cursor), keys, PageLimit(turn.limit));
    CursorRoundTrip(ADMIN_PREFIX, next);
    if EncodeAdmin(next).None? {
      assert key !in WithoutNone(ToMap(next));
    }
  }

  ghost predicate Serves(turn: Turn, keys: seq<string>, key: string, s: Stream, sizes: nat -> bool) {
    && turn.env.setup(key).Ready?
    && (forall c, n: nat | n > 0 && sizes(n) && OnTrack(s, At(c)) :: Meets(s, c, n, turn.env.fetch(key, c, n)))
    && (forall cursors, n | n == ShareOf(turn.env, cursors, keys, PageLimit(turn.limit), key) && n > 0 :: sizes(n))
  }

  /** The same stream, for a credential that has been read at least once. */
  function Begun(s: Stream): Stream { Stream(s.items, (c: Option<string>) => if c.None? then -1 else s.pos(c)) }

  lemma {:induction false} DecodedPageExtends(turn: Turn, keys: seq<string>, cursors: CursorMap, key: string,
                                              s: Stream, sizes: nat -> bool, got: seq<Sim>)
    requires NoRepeats(keys) && key in keys && Serves(turn, keys, key, s, sizes)
    requires ReadUpTo(s, LiveAt(cursors, key), got)
    requires LiveAt(cursors, key) != At(None) || ShareOf(turn.env, cursors, keys, PageLimit(turn.limit), key) > 0
    ensures var page := PageLimit(turn.limit);
            var live := LiveAt(Some(ToMap(PageNext(turn.env, cursors, keys, page))), key);
            live != At(None) && ReadUpTo(s, live, got + Of(key, PageItems(turn.env, cursors, keys, page)))
  {
    var live, page := LiveAt(cursors, key), PageLimit(turn.limit);
    assert got + [] == got;
    if live.At? {
      PageOfProvider(turn.env, cursors, keys, page, key);
      var share := ShareOf(turn.env, cursors, keys, page, key);
      if share > 0 {
        PageExtends(s, live.cursor, share, turn.env.fetch(key, live.cursor, share), got);
      }
    } else {
      PageWithoutProvider(turn.env, cursors, keys, page, key);
    }
  }

  /** A page reads on where the cursor says, if the credential has begun or
      gets a share now. */
  lemma {:induction false} PageReadsOn(turn: Turn, keys: seq<string>, c: Option<string>, key: string, s: Stream,
                                       sizes: nat -> bool, got: seq<Sim>)
    requires NoRepeats(keys) && key in keys && Serves(turn, keys, key, s, sizes) && ReadUpTo(s, LiveIn(key)(c), got)
    requires LiveIn(key)(c) != At(None) || ShareOf(turn.env, DecodeAdmin(c), keys, PageLimit(turn.limit), key) > 0
    ensures var r := AdminPage(keys)(c, turn);
            ReadUpTo(Begun(s), LiveNext(LiveIn(key), r.next), got + Of(key, r.items))
  {
    DecodedPageExtends(turn, keys, DecodeAdmin(c), key, s, sizes, got);
    NextCursorDecodes(keys, c, turn, key);
  }

  lemma ServesExtends(turn: Turn, keys: seq<string>, key: string, s: Stream, sizes: nat -> bool)
    requires NoRepeats(keys) && key in keys && Serves(turn, keys, key, s, sizes)
    ensures Extends(AdminPage(keys), turn, LiveIn(key), key, Begun(s))
  {
    forall c, got | ReadUpTo(Begun(s), LiveIn(key)(c), got) && AdminPage(keys)(c, turn).Listed?
      ensures var r := AdminPage(keys)(c, turn);
              ReadUpTo(Begun(s), LiveNext(LiveIn(key), r.next), got + Of(key, r.items))
    {
      PageReadsOn(turn, keys, c, key, s, sizes, got);
    }
  }

  lemma {:induction false} DoneStaysDone(keys: seq<string>, cursor: Option<string>, turns: seq<Turn>, key: string)
    requires NoRepeats(keys) && LiveIn(key)(cursor) == Done
    ensures Of(key, Follow(AdminPage(keys), cursor, turns).items) == []
  {
    forall t, c | t in turns && LiveIn(key)(c) == Done && AdminPage(keys)(c, t).Listed?
      ensures Of(key, AdminPage(keys)(c, t).items) == [] && LiveNext(LiveIn(key), AdminPage(keys)(c, t).next) == Done
    {
      PageWithoutProvider(t.env, DecodeAdmin(c), keys, PageLimit(t.limit), key);
      NextCursorDecodes(keys, c, t, key);
    }
    DoneEmitsNothing(AdminPage(keys), cursor, turns, LiveIn(key), key);
  }

  /** A credential that gets a share of the first page is read whole. */
  lemma {:induction false} ServedFromTheStart(keys: seq<string>, turns: seq<Turn>, key: string, s: Stream,
                                              sizes: nat -> bool)
    requires NoRepeats(keys) && key in keys && s.pos(None) == 0 && turns != []
    requires forall t | t in turns :: Serves(t, keys, key, s, sizes)
    requires ShareOf(turns[0].env, None, keys, PageLimit(turns[0].limit), key) > 0
    requires Follow(AdminPage(keys), None, turns).Ended?
    ensures Of(key, Follow(AdminPage(keys), None, turns).items) == s.items
  {
    var step, r := AdminPage(keys), AdminPage(keys)(None, turns[0]);
    assert turns[0] in turns && s.items[..0] == [];
    PageReadsOn(turns[0], keys, None, key, s, sizes, []);
    JourneyStep(step, None, turns, key);
    assert [] + Of(key, r.items) == Of(key, r.items);
    if r.next.Some? {
      forall t | t in turns[1..] ensures Extends(step, t, LiveIn(key), key, Begun(s)) {
        ServesExtends(t, keys, key, s, sizes);
      }
      RunReads(step, r.next, turns[1..], LiveIn(key), key, Begun(s), Of(key, r.items));
    }
  }

  /** A credential without a share of the first page is carried with None, and
      None is dropped from the cursor: the run never reads it. */
  lemma {:induction false} LeftOutFromTheStart(keys: seq<string>, turns: seq<Turn>, key: string)
    requires NoRepeats(keys) && key in keys && turns != [] && turns[0].env.setup(key).Ready?
    requires ShareOf(turns[0].env, None, keys, PageLimit(turns[0].limit), key) == 0
    ensures Of(key, Follow(AdminPage(keys), None, turns).items) == []
  {
    var step, r := AdminPage(keys), AdminPage(keys)(None, turns[0]);
    PageOfProvider(turns[0].env, None, keys, PageLimit(turns[0].limit), key);
    NextCursorDecodes(keys, None, turns[0], key);
    JourneyStep(step, None, turns, key);
    if r.next.Some? { DoneStaysDone(keys, r.next, turns[1..], key); }
  }

  lemma {:induction false} CallsOfAll(env: Env, keys: seq<string>)
    requires forall k | k in keys :: env.setup(k).Ready?
    ensures |Calls(env, None, keys)| == |keys|
    ensures forall i | 0 <= i < |keys| :: Calls(env, None, keys)[i] == Call(keys[i], None)
  {
    if keys != [] {
      CallsOfAll(env, keys[..|keys| - 1]);
      assert keys[|keys| - 1] in keys;
    }
  }

  lemma FirstShares(env: Env, keys: seq<string>, page: nat, i: nat)
    requires NoRepeats(keys) && i < |keys| && (forall k | k in keys :: env.setup(k).Ready?)
    ensures ShareOf(env, None, keys, page, keys[i]) > 0 <==> i < page
  {
    CallsOfAll(env, keys);
    var calls := Calls(env, None, keys);
    var j :| 0 <= j < |calls| && calls[j].key == keys[i]
             && ShareOf(env, None, keys, page, keys[i]) == Share(page, |calls|, j);
    assert i == j;
    ZeroShare(page, |keys|, i);
    assert CallLimits(page, |keys|)[i] == Share(page, |keys|, i);
  }

  /** Coverage of the admin listing. In a failure-free run the i-th credential
      is read whole exactly when it has no SIMs or the limit of the first page
      reaches it; otherwise nothing of it is ever read. */
  lemma {:induction false} RunCoversCredentialIff(keys: seq<string>, turns: seq<Turn>, i: nat, s: Stream,
                                                  sizes: nat -> bool)
    requires NoRepeats(keys) && i < |keys| && s.pos(None) == 0 && turns != []
    requires forall t | t in turns :: Serves(t, keys, keys[i], s, sizes)
    requires forall k | k in keys :: turns[0].env.setup(k).Ready?
    requires Follow(AdminPage(keys), None, turns).Ended?
    ensures var got := Of(keys[i], Follow(AdminPage(keys), None, turns).items);
            (got == s.items <==> i < PageLimit(turns[0].limit) || s.items == [])
            && (got == s.items || got == [])
  {
    FirstShares(turns[0].env, keys, PageLimit(turns[0].limit), i);
    if i < PageLimit(turns[0].limit) {
      ServedFromTheStart(keys, turns, keys[i], s, sizes);
    } else {
      LeftOutFromTheStart(keys, turns, keys[i]);
    }
  }

  // ---------- Termination ----------

  /** The work that a client's cursor leaves, negative for a cursor off track. */
  ghost function WorkIn(streams: string -> Stream, keys: seq<string>): Option<string> -> int {
    cursor =>
      var cursors := DecodeAdmin(cursor);
      if AllOnTrack(cursors, streams, keys) then Work(cursors, streams, keys) else -1
  }

  /** Dropping what stands at None leaves less work, but some, if anything is left. */
  lemma {:induction false} DroppingLowersWork(d: map<string, Option<string>>, streams: string -> Stream,
                                              keys: seq<string>)
    requires AllOnTrack(Some(d), streams, keys)
    ensures AllOnTrack(Some(WithoutNone(d)), streams, keys)
    ensures Work(Some(WithoutNone(d)), streams, keys) <= Work(Some(d), streams, keys)
    ensures (exists p :: p in keys && p in WithoutNone(d)) ==> Work(Some(WithoutNone(d)), streams, keys) > 0
  {
    WorkCompares(Some(d), Some(WithoutNone(d)), streams, keys);
    if p :| p in keys && p in WithoutNone(d) { assert LiveAt(Some(WithoutNone(d)), p).At?; }
  }

  lemma StepLowersWork(keys: seq<string>, c: Option<string>, turn: Turn, streams: string -> Stream)
    requires NoRepeats(keys) && CallsMoveOn(turn.env, PageLimit(turn.limit), streams, keys)
    requires WorkIn(streams, keys)(c) > 0 && AdminPage(keys)(c, turn).next.Some?
    ensures 0 < WorkIn(streams, keys)(AdminPage(keys)(c, turn).next) < WorkIn(streams, keys)(c)
  {
    var cursors, page := DecodeAdmin(c), PageLimit(turn.limit);
    var next := PageNext(turn.env, cursors, keys, page);
    NextIsEncodable(turn.env, cursors, keys, page);
    CursorRoundTrip(ADMIN_PREFIX, next);
    assert next != [];
    PageLowersWork(turn.env, page, cursors, streams, keys);
    DroppingLowersWork(ToMap(next), streams, keys);
    SomeKeyIsLeft(next, keys);
  }

  lemma {:induction false} SomeKeyIsLeft(next: Dict, keys: seq<string>)
    requires Distinct(next) && (forall m | m in next :: m.key in keys) && EncodeAdmin(next).Some?
    ensures exists p :: p in keys && p in WithoutNone(ToMap(next))
  {
    ActiveFacts(next);
    assert Cursors.Active(next) != [];
    var m := Cursors.Active(next)[0];
    assert m in Cursors.Active(next);
    ToMapHas(next, m.key, m.value);
  }

  /** The admin listing ends too: within the sum of (list length + 1) over the
      credentials, when every call fails or gets on in its list. */
  lemma {:induction false} AdminRunTerminates(keys: seq<string>, turns: seq<Turn>, streams: string -> Stream)
    requires NoRepeats(keys) && keys != [] && forall k | k in keys :: streams(k).pos(None) == 0
    requires forall t | t in turns :: CallsMoveOn(t.env, PageLimit(t.limit), streams, keys)
    requires |turns| >= Total(streams, keys)
    ensures Follow(AdminPage(keys), None, turns).Ended?
  {
    WorkAtStart(streams, keys);
    forall t, c | t in turns && WorkIn(streams, keys)(c) > 0
                  && AdminPage(keys)(c, t).Listed? && AdminPage(keys)(c, t).next.Some?
      ensures 0 < WorkIn(streams, keys)(AdminPage(keys)(c, t).next) < WorkIn(streams, keys)(c)
    {
      StepLowersWork(keys, c, t, streams);
    }
    RunIsBounded(AdminPage(keys), None, turns, WorkIn(streams, keys));
    RunIsNotAborted(AdminPage(keys), None, turns);
  }
}
