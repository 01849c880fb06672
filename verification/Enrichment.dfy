/** Moabits v2 enrichment: ICCIDs looked up in chunks, each through a cache
    with a time to live, against a plain lookup in the upstream rows. */
module Enrichment {
  import opened Unique
  import opened Adapters

  type Iccid = string

  datatype Row = Row(payload: string)

  type Rows = map<Iccid, Row>

  datatype Entry = Entry(expiresAt: real, row: Row)

  type Cache = map<string, Entry>

  /** One of the two v2 routes of an account, "detail" or "connectivity". */
  datatype Endpoint = Endpoint(base: string, apiKey: string, route: string)

  const PRUNE_SIZE := 10000

  function CacheKey(e: Endpoint, iccid: Iccid): string {
    e.base + "|" + e.apiKey + "|v2|" + (e.route + "|" + iccid)
  }

  /** How the fetch of a chunk ends. */
  datatype Attempt = Answered | Swallowed

  // ---------- Keys ----------

  lemma SuffixOf(head: string, a: string, b: string)
    requires head + a == head + b
    ensures a == b
  {
    assert a == (head + a)[|head|..] == (head + b)[|head|..] == b;
  }

  /** The rows of the two routes, and of different ICCIDs, never share a key. */
  lemma KeysDiffer(e: Endpoint, f: Endpoint, i: Iccid, j: Iccid)
    requires e.base == f.base && e.apiKey == f.apiKey && NoBar(e.route) && NoBar(f.route)
    requires CacheKey(e, i) == CacheKey(f, j)
    ensures e.route == f.route && i == j
  {
    SuffixOf(e.base + "|" + e.apiKey + "|v2|", e.route + "|" + i, f.route + "|" + j);
    SplitAtBar(e.route, i);
    SplitAtBar(f.route, j);
    assert Split(e.route + "|" + i)[0] == e.route && Split(f.route + "|" + j)[0] == f.route;
    SuffixOf(e.route + "|", i, j);
  }

  // ---------- Reading and storing ----------

  predicate Fresh(cache: Cache, e: Endpoint, iccid: Iccid, now: real) {
    CacheKey(e, iccid) in cache && cache[CacheKey(e, iccid)].expiresAt > now
  }

  predicate Hit(cache: Cache, e: Endpoint, iccid: Iccid, ttl: real, now: real) {
    ttl > 0.0 && Fresh(cache, e, iccid, now)
  }

  function Hits(cache: Cache, e: Endpoint, iccids: seq<Iccid>, ttl: real, now: real): Rows {
    map i | i in iccids && Hit(cache, e, i, ttl, now) :: cache[CacheKey(e, i)].row
  }

  function Missing(cache: Cache, e: Endpoint, iccids: seq<Iccid>, ttl: real, now: real): seq<Iccid> {
    if iccids == [] then []
    else
      var last := iccids[|iccids| - 1];
      Missing(cache, e, iccids[..|iccids| - 1], ttl, now) + if Hit(cache, e, last, ttl, now) then [] else [last]
  }

  lemma {:induction false} MissingFacts(cache: Cache, e: Endpoint, iccids: seq<Iccid>, ttl: real, now: real)
    ensures forall i :: i in Missing(cache, e, iccids, ttl, now) <==> i in iccids && !Hit(cache, e, i, ttl, now)
  {
    if iccids != [] {
      MissingFacts(cache, e, iccids[..|iccids| - 1], ttl, now);
      assert iccids == iccids[..|iccids| - 1] + [iccids[|iccids| - 1]];
    }
  }

  /** Drop what has expired, but only from a large cache. */
  function Pruned(cache: Cache, now: real): Cache {
    if |cache| > PRUNE_SIZE then map k | k in cache && cache[k].expiresAt > now :: cache[k] else cache
  }

  predicate StoredAs(before: Cache, after: Cache, e: Endpoint, rows: Rows, expiresAt: real) {
    && (forall i | i in rows :: CacheKey(e, i) in after && after[CacheKey(e, i)] == Entry(expiresAt, rows[i]))
    && (forall k | k in after :: (k in before && after[k] == before[k]) || exists i :: i in rows && k == CacheKey(e, i))
    && (forall k | k in before :: k in after)
  }

  /** Every entry of the account that can still be hit is the upstream's row. */
  ghost predicate Sound(cache: Cache, base: string, apiKey: string, upstream: string -> Rows, now: real) {
    forall route, i | NoBar(route) && Fresh(cache, Endpoint(base, apiKey, route), i, now) ::
      i in upstream(route) && cache[CacheKey(Endpoint(base, apiKey, route), i)].row == upstream(route)[i]
  }

  /** Time keeps a cache sound, and so does pruning. */
  lemma PruningKeepsSound(cache: Cache, base: string, apiKey: string, upstream: string -> Rows, now: real, later: real)
    requires Sound(cache, base, apiKey, upstream, now) && now <= later
    ensures Sound(Pruned(cache, later), base, apiKey, upstream, later)
    ensures forall e, i :: Fresh(Pruned(cache, later), e, i, later) <==> Fresh(cache, e, i, later)
  {
    forall route, i | NoBar(route) && Fresh(Pruned(cache, later), Endpoint(base, apiKey, route), i, later)
      ensures i in upstream(route)
      ensures Pruned(cache, later)[CacheKey(Endpoint(base, apiKey, route), i)].row == upstream(route)[i]
    {
      assert Fresh(cache, Endpoint(base, apiKey, route), i, now);
    }
  }

  lemma StoringKeepsSound(before: Cache, after: Cache, e: Endpoint, upstream: string -> Rows, rows: Rows,
                          expiresAt: real, now: real)
    requires Sound(before, e.base, e.apiKey, upstream, now) && NoBar(e.route)
    requires StoredAs(before, after, e, rows, expiresAt)
    requires forall i | i in rows :: i in upstream(e.route) && rows[i] == upstream(e.route)[i]
    ensures Sound(after, e.base, e.apiKey, upstream, now)
  {
    forall route, i | NoBar(route) && Fresh(after, Endpoint(e.base, e.apiKey, route), i, now)
      ensures i in upstream(route) && after[CacheKey(Endpoint(e.base, e.apiKey, route), i)].row == upstream(route)[i]
    {
      var f := Endpoint(e.base, e.apiKey, route);
      var k := CacheKey(f, i);
      if j :| j in rows && k == CacheKey(e, j) {
        KeysDiffer(e, f, j, i);
      } else {
        assert Fresh(before, f, i, now);
      }
    }
  }

  // ---------- A chunk ----------

  function Restrict(rows: Rows, iccids: seq<Iccid>): Rows { map i | i in iccids && i in rows :: rows[i] }

  function ChunkResult(cache: Cache, e: Endpoint, chunk: seq<Iccid>, ttl: real, now: real, upstream: Rows,
                       attempt: Attempt): Rows {
    var missing := Missing(cache, e, chunk, ttl, now);
    if missing == [] || attempt.Swallowed? then Hits(cache, e, chunk, ttl, now)
    else Hits(cache, e, chunk, ttl, now) + Restrict(upstream, missing)
  }

  /** What a chunk leaves in the cache: every row it fetched, for the time to live
      from when the answer was there, and every entry that had not expired by then;
      without an answer, or with no time to live, all as it was. */
  ghost predicate Remembers(before: Cache, after: Cache, e: Endpoint, chunk: seq<Iccid>, ttl: real, now: real,
                            done: real, upstream: Rows, attempt: Attempt)
  {
    if attempt.Swallowed? || ttl <= 0.0 then after == before
    else
      && (forall i | i in chunk && !Hit(before, e, i, ttl, now) && i in upstream ::
            CacheKey(e, i) in after && after[CacheKey(e, i)] == Entry(done + ttl, upstream[i]))
      && (forall k | k in before && before[k].expiresAt > done :: k in after)
      && (forall k | k in before && before[k].expiresAt > done && after[k] != before[k] ::
            exists i :: i in chunk && !Hit(before, e, i, ttl, now) && k == CacheKey(e, i))
  }

  lemma {:induction false} StoredIsRemembered(before: Cache, after: Cache, e: Endpoint, chunk: seq<Iccid>, ttl: real,
                                              now: real, done: real, upstream: Rows)
    requires NoBar(e.route)
    requires var rows := Restrict(upstream, Missing(before, e, chunk, ttl, now));
             if ttl <= 0.0 || rows == map[] then after == before
             else StoredAs(Pruned(before, done), after, e, rows, done + ttl)
    ensures Remembers(before, after, e, chunk, ttl, now, done, upstream, Answered)
  {
    if ttl <= 0.0 { return; }
    MissingFacts(before, e, chunk, ttl, now);
    var rows := Restrict(upstream, Missing(before, e, chunk, ttl, now));
    forall i | i in chunk && !Hit(before, e, i, ttl, now) && i in upstream
      ensures CacheKey(e, i) in after && after[CacheKey(e, i)] == Entry(done + ttl, upstream[i])
    {
      assert i in rows;
    }
    forall k | k in before && before[k].expiresAt > done
      ensures k in after
      ensures after[k] == before[k] || exists i :: i in chunk && !Hit(before, e, i, ttl, now) && k == CacheKey(e, i)
    {
      assert k in Pruned(before, done) && Pruned(before, done)[k] == before[k];
    }
  }

  lemma {:induction false} NothingToRemember(before: Cache, e: Endpoint, chunk: seq<Iccid>, ttl: real, now: real,
                                             done: real, upstream: Rows, attempt: Attempt)
    requires NoBar(e.route) && (Missing(before, e, chunk, ttl, now) == [] || attempt.Swallowed?)
    ensures Remembers(before, before, e, chunk, ttl, now, done, upstream, attempt)
  {
    if attempt.Answered? {
      assert Restrict(upstream, []) == map[];
      StoredIsRemembered(before, before, e, chunk, ttl, now, done, upstream);
    }
  }

  /** If a row of the chunk goes in, a cache of more than 10,000 entries is rid of those
      that have expired; a smaller one keeps every key. */
  ghost predicate Trims(before: Cache, after: Cache, e: Endpoint, chunk: seq<Iccid>, ttl: real, now: real,
                        done: real, upstream: Rows)
  {
    forall i | ttl > 0.0 && i in chunk && !Hit(before, e, i, ttl, now) && i in upstream ::
      if |before| > 10000 then forall k | k in after :: after[k].expiresAt > done
      else forall k | k in before :: k in after
  }

  lemma {:induction false} StoredIsTrimmed(before: Cache, after: Cache, e: Endpoint, chunk: seq<Iccid>, ttl: real,
                                           now: real, done: real, upstream: Rows)
    requires var rows := Restrict(upstream, Missing(before, e, chunk, ttl, now));
             ttl > 0.0 && rows != map[] ==> StoredAs(Pruned(before, done), after, e, rows, done + ttl)
    ensures Trims(before, after, e, chunk, ttl, now, done, upstream)
  {
    MissingFacts(before, e, chunk, ttl, now);
    var rows := Restrict(upstream, Missing(before, e, chunk, ttl, now));
    if i :| ttl > 0.0 && i in chunk && !Hit(before, e, i, ttl, now) && i in upstream { assert i in rows; }
  }

  lemma {:induction false} NothingToTrim(before: Cache, e: Endpoint, chunk: seq<Iccid>, ttl: real, now: real,
                                         done: real, upstream: Rows)
    requires Missing(before, e, chunk, ttl, now) == []
    ensures Trims(before, before, e, chunk, ttl, now, done, upstream)
  {
    assert Restrict(upstream, []) == map[];
    StoredIsTrimmed(before, before, e, chunk, ttl, now, done, upstream);
  }

  /** So a chunk that was answered needs no second answer: until its rows expire,
      asking for it again gives every row that there is, whatever becomes of the
      fetch. */
  lemma {:induction false} SecondLookupIsServed(before: Cache, after: Cache, e: Endpoint, chunk: seq<Iccid>, ttl: real,
                                                now: real, done: real, upstream: string -> Rows, again: real,
                                                attempt: Attempt)
    requires NoBar(e.route) && ttl > 0.0 && now <= done <= again < done + ttl
    requires Remembers(before, after, e, chunk, ttl, now, done, upstream(e.route), Answered)
    requires Sound(after, e.base, e.apiKey, upstream, again)
    ensures var r := ChunkResult(after, e, chunk, ttl, again, upstream(e.route), attempt);
            forall i | i in chunk && i in upstream(e.route) && !Hit(before, e, i, ttl, now) ::
              i in r && r[i] == upstream(e.route)[i] && i !in Missing(after, e, chunk, ttl, again)
  {
    MissingFacts(after, e, chunk, ttl, again);
    ChunkIsLookup(after, e, chunk, ttl, again, upstream, attempt);
    forall i | i in chunk && i in upstream(e.route) && !Hit(before, e, i, ttl, now)
      ensures Hit(after, e, i, ttl, again)
    {
    }
  }

  /** The rows of a chunk that may be missing: not in the cache, and not fetched. */
  predicate Lost(cache: Cache, e: Endpoint, iccid: Iccid, ttl: real, now: real, attempt: Attempt) {
    attempt.Swallowed? && !Hit(cache, e, iccid, ttl, now)
  }

  lemma ChunkIsLookup(cache: Cache, e: Endpoint, chunk: seq<Iccid>, ttl: real, now: real, upstream: string -> Rows,
                      attempt: Attempt)
    requires Sound(cache, e.base, e.apiKey, upstream, now) && NoBar(e.route)
    ensures var r := ChunkResult(cache, e, chunk, ttl, now, upstream(e.route), attempt);
            (forall i :: i in r <==> i in chunk && i in upstream(e.route) && !Lost(cache, e, i, ttl, now, attempt))
            && forall i | i in r :: r[i] == upstream(e.route)[i]
  {
    MissingFacts(cache, e, chunk, ttl, now);
    var missing := Missing(cache, e, chunk, ttl, now);
    assert Endpoint(e.base, e.apiKey, e.route) == e;
    if missing == [] { assert forall i | i in chunk :: i !in missing; }
  }

  // ---------- All chunks ----------

  function Chunks(iccids: seq<Iccid>, batch: nat): (chunks: seq<seq<Iccid>>)
    requires batch > 0
  {
    if iccids == [] then []
    else if |iccids| <= batch then [iccids]
    else [iccids[..batch]] + Chunks(iccids[batch..], batch)
  }

  function Flat(chunks: seq<seq<Iccid>>): seq<Iccid> {
    if chunks == [] then [] else chunks[0] + Flat(chunks[1..])
  }

  lemma {:induction false} FlatOfCons(chunk: seq<Iccid>, chunks: seq<seq<Iccid>>)
    ensures Flat([chunk] + chunks) == chunk + Flat(chunks)
  {
    assert ([chunk] + chunks)[1..] == chunks;
  }

  lemma {:induction false} ChunkSizes(iccids: seq<Iccid>, batch: nat)
    requires batch > 0
    ensures forall chunk | chunk in Chunks(iccids, batch) :: 0 < |chunk| <= batch
  {
    if |iccids| > batch { ChunkSizes(iccids[batch..], batch); }
  }

  lemma {:induction false} FlatOfChunks(iccids: seq<Iccid>, batch: nat)
    requires batch > 0
    ensures Flat(Chunks(iccids, batch)) == iccids
  {
    if iccids == [] {
    } else if |iccids| <= batch {
      FlatOfCons(iccids, []);
      assert [iccids] + [] == [iccids];
    } else {
      FlatOfChunks(iccids[batch..], batch);
      FlatOfCons(iccids[..batch], Chunks(iccids[batch..], batch));
    }
  }

  /** Chunks are a cut of the list: nothing lost, repeated or out of order, and
      none is longer than the batch. */
  lemma {:induction false} ChunksAreACut(iccids: seq<Iccid>, batch: nat)
    requires batch > 0
    ensures Flat(Chunks(iccids, batch)) == iccids
    ensures forall chunk | chunk in Chunks(iccids, batch) :: 0 < |chunk| <= batch
  {
    FlatOfChunks(iccids, batch);
    ChunkSizes(iccids, batch);
  }

  lemma {:induction false} FlatHas(chunks: seq<seq<Iccid>>, i: Iccid)
    ensures i in Flat(chunks) <==> exists k :: 0 <= k < |chunks| && i in chunks[k]
  {
    if chunks != [] {
      FlatHas(chunks[1..], i);
      if k :| 0 <= k < |chunks| && i in chunks[k] {
        if k > 0 { assert i in chunks[1..][k - 1]; }
      }
      if k :| 0 <= k < |chunks[1..]| && i in chunks[1..][k] { assert i in chunks[k + 1]; }
    }
  }

  /** Chunks run interleaved with each other and with other callers, so each one
      finds the cache in some state of its own. */
  datatype Scene = Scene(cache: Cache, now: real, attempt: Attempt)

  function Merged(e: Endpoint, chunks: seq<seq<Iccid>>, ttl: real, upstream: Rows, scenes: seq<Scene>): Rows
    requires |scenes| == |chunks|
  {
    if chunks == [] then map[]
    else
      var n := |chunks| - 1;
      Merged(e, chunks[..n], ttl, upstream, scenes[..n]) +
      ChunkResult(scenes[n].cache, e, chunks[n], ttl, scenes[n].now, upstream, scenes[n].attempt)
  }

  function Asked(iccids: seq<Iccid>): seq<Iccid> { Dedupe(NonEmpty(iccids)) }

  function Enriched(e: Endpoint, iccids: seq<Iccid>, batch: nat, ttl: real, upstream: Rows, scenes: seq<Scene>): Rows
    requires batch > 0 && |scenes| == |Chunks(Asked(iccids), batch)|
  {
    Merged(e, Chunks(Asked(iccids), batch), ttl, upstream, scenes)
  }

  ghost predicate AllSound(e: Endpoint, upstream: string -> Rows, scenes: seq<Scene>) {
    NoBar(e.route) && forall s | s in scenes :: Sound(s.cache, e.base, e.apiKey, upstream, s.now)
  }

  predicate Found(e: Endpoint, chunks: seq<seq<Iccid>>, ttl: real, scenes: seq<Scene>, i: Iccid)
    requires |scenes| == |chunks|
  {
    exists k :: 0 <= k < |chunks| && i in chunks[k]
                && !Lost(scenes[k].cache, e, i, ttl, scenes[k].now, scenes[k].attempt)
  }

  lemma {:induction false} MergedIsLookup(e: Endpoint, chunks: seq<seq<Iccid>>, ttl: real, upstream: string -> Rows,
                                          scenes: seq<Scene>)
    requires |scenes| == |chunks| && AllSound(e, upstream, scenes)
    ensures var r := Merged(e, chunks, ttl, upstream(e.route), scenes);
            (forall i :: i in r <==> i in upstream(e.route) && Found(e, chunks, ttl, scenes, i))
            && forall i | i in r :: r[i] == upstream(e.route)[i]
  {
    if chunks != [] {
      var n := |chunks| - 1;
      MergedIsLookup(e, chunks[..n], ttl, upstream, scenes[..n]);
      assert scenes[n] in scenes;
      ChunkIsLookup(scenes[n].cache, e, chunks[n], ttl, scenes[n].now, upstream, scenes[n].attempt);
      forall i
        ensures Found(e, chunks, ttl, scenes, i) <==>
                Found(e, chunks[..n], ttl, scenes[..n], i)
                || (i in chunks[n] && !Lost(scenes[n].cache, e, i, ttl, scenes[n].now, scenes[n].attempt))
      {
        FoundSplits(e, chunks, ttl, scenes, i);
      }
    }
  }

  lemma FoundSplits(e: Endpoint, chunks: seq<seq<Iccid>>, ttl: real, scenes: seq<Scene>, i: Iccid)
    requires |scenes| == |chunks| > 0
    ensures var n := |chunks| - 1;
            Found(e, chunks, ttl, scenes, i) <==>
            Found(e, chunks[..n], ttl, scenes[..n], i)
            || (i in chunks[n] && !Lost(scenes[n].cache, e, i, ttl, scenes[n].now, scenes[n].attempt))
  {
    var n := |chunks| - 1;
    if Found(e, chunks[..n], ttl, scenes[..n], i) {
      var k :| 0 <= k < n && i in chunks[..n][k]
               && !Lost(scenes[..n][k].cache, e, i, ttl, scenes[..n][k].now, scenes[..n][k].attempt);
      assert i in chunks[k] && !Lost(scenes[k].cache, e, i, ttl, scenes[k].now, scenes[k].attempt);
    }
    if Found(e, chunks, ttl, scenes, i) {
      var k :| 0 <= k < |chunks| && i in chunks[k]
               && !Lost(scenes[k].cache, e, i, ttl, scenes[k].now, scenes[k].attempt);
      if k < n {
        assert i in chunks[..n][k]
               && !Lost(scenes[..n][k].cache, e, i, ttl, scenes[..n][k].now, scenes[..n][k].attempt);
      }
    }
  }

  lemma {:induction false} AskedHas(iccids: seq<Iccid>)
    ensures forall i :: i in Asked(iccids) <==> i in iccids && i != ""
  {
    NonEmptyFacts(iccids);
    DedupeFacts(NonEmpty(iccids));
  }

  lemma {:induction false} AnsweredIsFound(e: Endpoint, asked: seq<Iccid>, batch: nat, ttl: real, scenes: seq<Scene>,
                                           i: Iccid)
    requires batch > 0 && |scenes| == |Chunks(asked, batch)| && forall s | s in scenes :: s.attempt.Answered?
    ensures Found(e, Chunks(asked, batch), ttl, scenes, i) <==> i in asked
  {
    var chunks := Chunks(asked, batch);
    ChunksAreACut(asked, batch);
    FlatHas(chunks, i);
    if k :| 0 <= k < |chunks| && i in chunks[k] {
      assert scenes[k] in scenes;
      assert !Lost(scenes[k].cache, e, i, ttl, scenes[k].now, scenes[k].attempt);
    }
  }

  /** When no chunk fails, chunks and caches make no difference: the result is
      the upstream restricted to the ICCIDs asked for. */
  lemma {:induction false} EnrichmentIsLookup(e: Endpoint, iccids: seq<Iccid>, batch: nat, ttl: real,
                                              upstream: string -> Rows, scenes: seq<Scene>)
    requires batch > 0 && |scenes| == |Chunks(Asked(iccids), batch)| && AllSound(e, upstream, scenes)
    requires forall s | s in scenes :: s.attempt.Answered?
    ensures Enriched(e, iccids, batch, ttl, upstream(e.route), scenes) == Restrict(upstream(e.route), Asked(iccids))
  {
    MergedIsLookup(e, Chunks(Asked(iccids), batch), ttl, upstream, scenes);
    forall i { AnsweredIsFound(e, Asked(iccids), batch, ttl, scenes, i); }
  }

  /** When chunks fail, what is there is right, and what is missing was in a
      failed chunk and not in the cache. */
  lemma {:induction false} EnrichmentDegradesGracefully(e: Endpoint, iccids: seq<Iccid>, batch: nat, ttl: real,
                                                        upstream: string -> Rows, scenes: seq<Scene>, i: Iccid)
    requires batch > 0 && |scenes| == |Chunks(Asked(iccids), batch)| && AllSound(e, upstream, scenes)
    ensures var r, chunks := Enriched(e, iccids, batch, ttl, upstream(e.route), scenes), Chunks(Asked(iccids), batch);
            (i in r ==> i in iccids && i in upstream(e.route) && r[i] == upstream(e.route)[i])
            && (i in iccids && i != "" && i in upstream(e.route) && i !in r ==>
                  exists k :: 0 <= k < |chunks| && i in chunks[k]
                              && scenes[k].attempt.Swallowed? && !Hit(scenes[k].cache, e, i, ttl, scenes[k].now))
  {
    var chunks := Chunks(Asked(iccids), batch);
    MergedIsLookup(e, chunks, ttl, upstream, scenes);
    ChunksAreACut(Asked(iccids), batch);
    FlatHas(chunks, i);
    AskedHas(iccids);
    if i in Asked(iccids) && !Found(e, chunks, ttl, scenes, i) {
      var k :| 0 <= k < |chunks| && i in chunks[k];
      assert Lost(scenes[k].cache, e, i, ttl, scenes[k].now, scenes[k].attempt);
    }
  }

  function MergeAll(parts: seq<Rows>): Rows {
    if parts == [] then map[] else MergeAll(parts[..|parts| - 1]) + parts[|parts| - 1]
  }

  /** What each of the chunks came to. */
  ghost predicate PartsOf(parts: seq<Rows>, e: Endpoint, chunks: seq<seq<Iccid>>, ttl: real, upstream: Rows,
                          scenes: seq<Scene>)
    requires |parts| == |scenes| <= |chunks|
  {
    parts != [] ==>
      var n := |parts| - 1;
      && PartsOf(parts[..n], e, chunks, ttl, upstream, scenes[..n])
      && parts[n] == ChunkResult(scenes[n].cache, e, chunks[n], ttl, scenes[n].now, upstream, scenes[n].attempt)
  }

  lemma {:induction false} OneMorePart(parts: seq<Rows>, part: Rows, e: Endpoint, chunks: seq<seq<Iccid>>, ttl: real,
                                       upstream: Rows, scenes: seq<Scene>, scene: Scene)
    requires |parts| == |scenes| < |chunks| && PartsOf(parts, e, chunks, ttl, upstream, scenes)
    requires part == ChunkResult(scene.cache, e, chunks[|parts|], ttl, scene.now, upstream, scene.attempt)
    ensures PartsOf(parts + [part], e, chunks, ttl, upstream, scenes + [scene])
    ensures MergeAll(parts + [part]) == MergeAll(parts) + part
  {
    assert (parts + [part])[..|parts|] == parts && (scenes + [scene])[..|scenes|] == scenes;
  }

  lemma {:induction false} MergedParts(parts: seq<Rows>, e: Endpoint, chunks: seq<seq<Iccid>>, ttl: real,
                                       upstream: Rows, scenes: seq<Scene>)
    requires |parts| == |scenes| <= |chunks| && PartsOf(parts, e, chunks, ttl, upstream, scenes)
    ensures MergeAll(parts) == Merged(e, chunks[..|scenes|], ttl, upstream, scenes)
  {
    if parts != [] {
      var n := |parts| - 1;
      MergedParts(parts[..n], e, chunks, ttl, upstream, scenes[..n]);
      assert chunks[..n + 1][..n] == chunks[..n];
    }
  }

  /** One chunk after the other: each looks in the cache at its time, its fetch comes to
      what is given for it, and it leaves the cache as the next one finds it. */
  ghost predicate Chain(e: Endpoint, chunks: seq<seq<Iccid>>, ttl: real, clock: seq<real>, upstream: string -> Rows,
                        attempts: nat -> Attempt, scenes: seq<Scene>, first: Cache, last: Cache)
    requires |scenes| <= |chunks| && 2 * |chunks| < |clock|
  {
    if scenes == [] then last == first
    else
      var n := |scenes| - 1;
      && Chain(e, chunks, ttl, clock, upstream, attempts, scenes[..n], first, scenes[n].cache)
      && scenes[n].attempt == attempts(n) && scenes[n].now == clock[2 * n]
      && Sound(scenes[n].cache, e.base, e.apiKey, upstream, scenes[n].now)
      && Remembers(scenes[n].cache, last, e, chunks[n], ttl, clock[2 * n], clock[2 * n + 1], upstream(e.route),
                   scenes[n].attempt)
  }

  lemma {:induction false} OneMoreLink(e: Endpoint, chunks: seq<seq<Iccid>>, ttl: real, clock: seq<real>,
                                       upstream: string -> Rows, attempts: nat -> Attempt, scenes: seq<Scene>,
                                       scene: Scene, first: Cache, last: Cache)
    requires |scenes| < |chunks| && 2 * |chunks| < |clock|
    requires Chain(e, chunks, ttl, clock, upstream, attempts, scenes, first, scene.cache)
    requires Sound(scene.cache, e.base, e.apiKey, upstream, scene.now)
    requires var n := |scenes|;
             scene.attempt == attempts(n) && scene.now == clock[2 * n]
             && Remembers(scene.cache, last, e, chunks[n], ttl, clock[2 * n], clock[2 * n + 1], upstream(e.route),
                          scene.attempt)
    ensures Chain(e, chunks, ttl, clock, upstream, attempts, scenes + [scene], first, last)
  {
    assert (scenes + [scene])[..|scenes|] == scenes;
  }

  lemma {:induction false} ChainIsSound(e: Endpoint, chunks: seq<seq<Iccid>>, ttl: real, clock: seq<real>,
                                        upstream: string -> Rows, attempts: nat -> Attempt, scenes: seq<Scene>,
                                        first: Cache, last: Cache)
    requires |scenes| <= |chunks| && 2 * |chunks| < |clock| && NoBar(e.route)
    requires Chain(e, chunks, ttl, clock, upstream, attempts, scenes, first, last)
    ensures AllSound(e, upstream, scenes)
  {
    if scenes != [] {
      var n := |scenes| - 1;
      ChainIsSound(e, chunks, ttl, clock, upstream, attempts, scenes[..n], first, scenes[n].cache);
      assert scenes == scenes[..n] + [scenes[n]];
    }
  }

  // ---------- The cache as it runs ----------

  class EnrichmentCache {
    var entries: Cache

    /** `_v2_enrichment_cache_hits` */
    method CacheHits(e: Endpoint, iccids: seq<Iccid>, ttl: real, now: real) returns (cached: Rows, missing: seq<Iccid>)
      ensures cached == Hits(entries, e, iccids, ttl, now) && missing == Missing(entries, e, iccids, ttl, now)
    {
      cached, missing := map[], [];
      if ttl <= 0.0 {
        AllMissing(entries, e, iccids, ttl, now);
        return map[], iccids;
      }
      for k := 0 to |iccids|
        invariant cached == Hits(entries, e, iccids[..k], ttl, now)
        invariant missing == Missing(entries, e, iccids[..k], ttl, now)
      {
        var iccid := iccids[k];
        assert iccids[..k + 1][..k] == iccids[..k] && iccids[..k + 1] == iccids[..k] + [iccid];
        if CacheKey(e, iccid) in entries && entries[CacheKey(e, iccid)].expiresAt > now {
          cached := cached[iccid := entries[CacheKey(e, iccid)].row];
        } else {
          missing := missing + [iccid];
        }
      }
      assert iccids[..|iccids|] == iccids;
    }

    /** `_v2_enrichment_cache_store` */
    method CacheStore(e: Endpoint, rows: Rows, ttl: real, now: real, ghost upstream: string -> Rows)
      requires NoBar(e.route) && Sound(entries, e.base, e.apiKey, upstream, now)
      requires forall i | i in rows :: i in upstream(e.route) && rows[i] == upstream(e.route)[i]
      modifies this
      ensures Sound(entries, e.base, e.apiKey, upstream, now)
      ensures if ttl <= 0.0 || rows == map[] then entries == old(entries)
              else StoredAs(Pruned(old(entries), now), entries, e, rows, now + ttl)
    {
      if ttl <= 0.0 || rows == map[] { return; }
      PruningKeepsSound(entries, e.base, e.apiKey, upstream, now, now);
      if |entries| > PRUNE_SIZE {
        entries := map k | k in entries && entries[k].expiresAt > now :: entries[k];
      }
      ghost var before := entries;
      var todo := rows.Keys;
      while todo != {}
        invariant todo <= rows.Keys
        invariant forall i | i in rows && i !in todo ::
                    CacheKey(e, i) in entries && entries[CacheKey(e, i)] == Entry(now + ttl, rows[i])
        invariant forall k | k in entries ::
                    (k in before && entries[k] == before[k]) || exists i :: i in rows && k == CacheKey(e, i)
        invariant forall k | k in before :: k in entries
        decreases |todo|
      {
        var i :| i in todo;
        forall j | j in rows && CacheKey(e, j) == CacheKey(e, i) ensures j == i { KeysDiffer(e, e, j, i); }
        entries := entries[CacheKey(e, i) := Entry(now + ttl, rows[i])];
        todo := todo - {i};
      }
      StoringKeepsSound(before, entries, e, upstream, rows, now + ttl, now);
    }

    /** Store what was fetched of a chunk. */
    method FillCache(e: Endpoint, chunk: seq<Iccid>, fetched: Rows, ttl: real, ghost now: real, done: real,
                     ghost upstream: string -> Rows)
      requires NoBar(e.route) && Sound(entries, e.base, e.apiKey, upstream, done)
      requires fetched == Restrict(upstream(e.route), Missing(entries, e, chunk, ttl, now))
      modifies this
      ensures Sound(entries, e.base, e.apiKey, upstream, done)
      ensures Remembers(old(entries), entries, e, chunk, ttl, now, done, upstream(e.route), Answered)
      ensures Trims(old(entries), entries, e, chunk, ttl, now, done, upstream(e.route))
    {
      ghost var before := entries;
      CacheStore(e, fetched, ttl, done, upstream);
      StoredIsRemembered(before, entries, e, chunk, ttl, now, done, upstream(e.route));
      StoredIsTrimmed(before, entries, e, chunk, ttl, now, done, upstream(e.route));
    }

    /** One chunk: look in the cache, fetch the rest, remember it. */
    method FetchChunk(e: Endpoint, chunk: seq<Iccid>, ttl: real, now: real, done: real,
                      upstream: string -> Rows, attempt: Attempt, ghost later: real) returns (r: Rows)
      requires NoBar(e.route) && Sound(entries, e.base, e.apiKey, upstream, now) && now <= done <= later
      modifies this
      ensures r == ChunkResult(old(entries), e, chunk, ttl, now, upstream(e.route), attempt)
      ensures Sound(entries, e.base, e.apiKey, upstream, later)
      ensures Remembers(old(entries), entries, e, chunk, ttl, now, done, upstream(e.route), attempt)
      ensures attempt.Answered? ==> Trims(old(entries), entries, e, chunk, ttl, now, done, upstream(e.route))
    {
      var cached, missing := CacheHits(e, chunk, ttl, now);
      LaterIsSound(entries, e.base, e.apiKey, upstream, now, done);
      LaterIsSound(entries, e.base, e.apiKey, upstream, now, later);
      if missing == [] || attempt == Swallowed {
        NothingToRemember(entries, e, chunk, ttl, now, done, upstream(e.route), attempt);
        if missing == [] { NothingToTrim(entries, e, chunk, ttl, now, done, upstream(e.route)); }
        return cached;
      }
      var fetched := Restrict(upstream(e.route), missing);
      FillCache(e, chunk, fetched, ttl, now, done, upstream);
      LaterIsSound(entries, e.base, e.apiKey, upstream, done, later);
      r := cached + fetched;
    }

    /** The next chunk of an enrichment, and what it leaves in the cache. */
    method FetchLink(e: Endpoint, chunks: seq<seq<Iccid>>, ttl: real, clock: seq<real>, upstream: string -> Rows,
                     attempts: nat -> Attempt, k: nat, ghost scenes: seq<Scene>, ghost first: Cache)
      returns (part: Rows, ghost scene: Scene)
      requires k == |scenes| < |chunks| && 2 * |chunks| < |clock| && NoBar(e.route)
      requires Sound(entries, e.base, e.apiKey, upstream, clock[2 * k])
      requires clock[2 * k] <= clock[2 * k + 1] <= clock[2 * k + 2]
      requires Chain(e, chunks, ttl, clock, upstream, attempts, scenes, first, entries)
      modifies this
      ensures part == ChunkResult(scene.cache, e, chunks[k], ttl, scene.now, upstream(e.route), scene.attempt)
      ensures Sound(entries, e.base, e.apiKey, upstream, clock[2 * k + 2])
      ensures Chain(e, chunks, ttl, clock, upstream, attempts, scenes + [scene], first, entries)
    {
      scene := Scene(entries, clock[2 * k], attempts(k));
      part := FetchChunk(e, chunks[k], ttl, clock[2 * k], clock[2 * k + 1], upstream, attempts(k), clock[2 * k + 2]);
      OneMoreLink(e, chunks, ttl, clock, upstream, attempts, scenes, scene, first, entries);
    }

    /** The chunks one after the other. */
    method FetchChunks(e: Endpoint, chunks: seq<seq<Iccid>>, ttl: real, clock: seq<real>, upstream: string -> Rows,
                       attempts: nat -> Attempt)
      returns (r: Rows, ghost scenes: seq<Scene>)
      requires NoBar(e.route) && |clock| > 2 * |chunks|
      requires Sound(entries, e.base, e.apiKey, upstream, clock[0])
      requires forall i, j | 0 <= i <= j < |clock| :: clock[i] <= clock[j]
      modifies this
      ensures |scenes| == |chunks| && r == Merged(e, chunks, ttl, upstream(e.route), scenes)
      ensures Chain(e, chunks, ttl, clock, upstream, attempts, scenes, old(entries), entries)
    {
      ghost var parts: seq<Rows> := [];
      r, scenes := map[], [];
      for k := 0 to |chunks|
        invariant |scenes| == |parts| == k
        invariant Sound(entries, e.base, e.apiKey, upstream, clock[2 * k])
        invariant r == MergeAll(parts) && PartsOf(parts, e, chunks, ttl, upstream(e.route), scenes)
        invariant Chain(e, chunks, ttl, clock, upstream, attempts, scenes, old(entries), entries)
      {
        var part;
        ghost var scene;
        part, scene := FetchLink(e, chunks, ttl, clock, upstream, attempts, k, scenes, old(entries));
        OneMorePart(parts, part, e, chunks, ttl, upstream(e.route), scenes, scene);
        r := r + part;
        scenes, parts := scenes + [scene], parts + [part];
      }
      MergedParts(parts, e, chunks, ttl, upstream(e.route), scenes);
      assert chunks[..|chunks|] == chunks;
    }

    /** One route of `_fetch_v2_enrichment`, its chunks one after the other. The
        clock reads `clock[2 * k]` when chunk k looks in the cache and
        `clock[2 * k + 1]` when its answer is there. */
    method FetchEnrichment(e: Endpoint, iccids: seq<Iccid>, batch: nat, ttl: real, clock: seq<real>,
                           upstream: string -> Rows, attempts: nat -> Attempt)
      returns (r: Rows, ghost scenes: seq<Scene>)
      requires batch > 0 && NoBar(e.route) && |clock| > 2 * |Chunks(Asked(iccids), batch)|
      requires Sound(entries, e.base, e.apiKey, upstream, clock[0])
      requires forall i, j | 0 <= i <= j < |clock| :: clock[i] <= clock[j]
      modifies this
      ensures |scenes| == |Chunks(Asked(iccids), batch)| && AllSound(e, upstream, scenes)
      ensures r == Enriched(e, iccids, batch, ttl, upstream(e.route), scenes)
      ensures Chain(e, Chunks(Asked(iccids), batch), ttl, clock, upstream, attempts, scenes, old(entries), entries)
    {
      var chunks := Chunks(Asked(iccids), batch);
      r, scenes := FetchChunks(e, chunks, ttl, clock, upstream, attempts);
      ChainIsSound(e, chunks, ttl, clock, upstream, attempts, scenes, old(entries), entries);
    }
  }

  lemma LaterIsSound(cache: Cache, base: string, apiKey: string, upstream: string -> Rows, now: real, later: real)
    requires Sound(cache, base, apiKey, upstream, now) && now <= later
    ensures Sound(cache, base, apiKey, upstream, later)
  {
    forall route, i | NoBar(route) && Fresh(cache, Endpoint(base, apiKey, route), i, later)
      ensures i in upstream(route) && cache[CacheKey(Endpoint(base, apiKey, route), i)].row == upstream(route)[i]
    {
      assert Fresh(cache, Endpoint(base, apiKey, route), i, now);
    }
  }

  lemma {:induction false} AllMissing(cache: Cache, e: Endpoint, iccids: seq<Iccid>, ttl: real, now: real)
    requires ttl <= 0.0
    ensures Missing(cache, e, iccids, ttl, now) == iccids && Hits(cache, e, iccids, ttl, now) == map[]
  {
    assert forall i :: !Hit(cache, e, i, ttl, now);
    if iccids != [] {
      AllMissing(cache, e, iccids[..|iccids| - 1], ttl, now);
      assert iccids == iccids[..|iccids| - 1] + [iccids[|iccids| - 1]];
    }
  }
}
