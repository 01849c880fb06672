/** The cache of a company's SIM list: callers look before and after they take
    the key's lock, so that one fetch serves them all. A call is cut at its
    suspension points; a run is any sequence of steps of any number of callers
    at nondecreasing times. */
module SimListCache {
  import opened Option

  type Caller = nat
  type Rows = seq<string>

  datatype Entry = Entry(expiresAt: real, rows: Rows)

  datatype Phase = Idle | Waiting(key: string) | Fetching(key: string)

  /** A caller looks at the cache; takes the lock and looks again; has its answer
      and stores it; or gives up, by an error or a cancellation. */
  datatype Event =
    | Ask(caller: Caller, key: string, at: real)
    | Enter(caller: Caller, key: string, at: real)
    | Answer(caller: Caller, key: string, at: real, rows: Rows)
    | GiveUp(caller: Caller, key: string, at: real)

  datatype System = System(cache: map<string, Entry>, locks: map<string, Caller>, phases: map<Caller, Phase>)

  const INITIAL := System(map[], map[], map[])

  // ---------- One step ----------

  function PhaseOf(s: System, c: Caller): Phase { if c in s.phases then s.phases[c] else Idle }

  predicate Fresh(ttl: real, cache: map<string, Entry>, key: string, now: real) {
    ttl > 0.0 && key in cache && cache[key].expiresAt > now
  }

  predicate Allowed(s: System, e: Event) {
    match e
    case Ask(c, _, _) => PhaseOf(s, c).Idle?
    case Enter(c, key, _) => PhaseOf(s, c) == Waiting(key) && key !in s.locks
    case Answer(c, key, _, _) => PhaseOf(s, c) == Fetching(key)
    case GiveUp(c, key, _) => PhaseOf(s, c) == Waiting(key) || PhaseOf(s, c) == Fetching(key)
  }

  function Step(ttl: real, s: System, e: Event): System {
    match e
    case Ask(c, key, now) =>
      if Fresh(ttl, s.cache, key, now) then s else s.(phases := s.phases[c := Waiting(key)])
    case Enter(c, key, now) =>
      if Fresh(ttl, s.cache, key, now) then s.(phases := s.phases[c := Idle])
      else s.(locks := s.locks[key := c], phases := s.phases[c := Fetching(key)])
    case Answer(c, key, now, rows) =>
      System(
        if ttl > 0.0 then s.cache[key := Entry(now + ttl, rows)] else s.cache,
        s.locks - {key}, s.phases[c := Idle])
    case GiveUp(c, key, _) =>
      s.(locks := if PhaseOf(s, c).Fetching? then s.locks - {key} else s.locks, phases := s.phases[c := Idle])
  }

  function Run(ttl: real, es: seq<Event>): System {
    if es == [] then INITIAL else Step(ttl, Run(ttl, es[..|es| - 1]), es[|es| - 1])
  }

  predicate Legal(ttl: real, es: seq<Event>) {
    es != [] ==>
      var n := |es| - 1;
      Legal(ttl, es[..n]) && Allowed(Run(ttl, es[..n]), es[n]) && (n > 0 ==> es[n - 1].at <= es[n].at)
  }

  lemma {:induction false} TimesAscend(ttl: real, es: seq<Event>, i: nat, j: nat)
    requires Legal(ttl, es) && i <= j < |es|
    ensures es[i].at <= es[j].at
  {
    var n := |es| - 1;
    if j < n {
      TimesAscend(ttl, es[..n], i, j);
    } else if i < n {
      TimesAscend(ttl, es[..n], i, n - 1);
    }
  }

  lemma {:induction false} PrefixIsLegal(ttl: real, es: seq<Event>, m: nat)
    requires Legal(ttl, es) && m <= |es|
    ensures Legal(ttl, es[..m])
  {
    if m == |es| {
      assert es[..m] == es;
    } else {
      PrefixIsLegal(ttl, es[..|es| - 1], m);
      assert es[..|es| - 1][..m] == es[..m];
    }
  }

  lemma {:induction false} StepOfRun(ttl: real, es: seq<Event>, m: nat)
    requires Legal(ttl, es) && m < |es|
    ensures Legal(ttl, es[..m]) && Allowed(Run(ttl, es[..m]), es[m])
    ensures Run(ttl, es[..m + 1]) == Step(ttl, Run(ttl, es[..m]), es[m])
  {
    PrefixIsLegal(ttl, es, m + 1);
    assert es[..m + 1][..m] == es[..m];
  }

  // ---------- One fetch at a time ----------

  ghost predicate LockFits(s: System, c: Caller) {
    PhaseOf(s, c).Fetching? ==> PhaseOf(s, c).key in s.locks && s.locks[PhaseOf(s, c).key] == c
  }

  lemma {:induction false} FetcherHoldsLock(ttl: real, es: seq<Event>)
    requires Legal(ttl, es)
    ensures forall c :: LockFits(Run(ttl, es), c)
  {
    if es != [] {
      var n := |es| - 1;
      FetcherHoldsLock(ttl, es[..n]);
      var s, t := Run(ttl, es[..n]), Run(ttl, es);
      forall c ensures LockFits(t, c) {
        assert LockFits(s, c);
        assert LockFits(s, es[n].caller);
        assert c != es[n].caller ==> PhaseOf(t, c) == PhaseOf(s, c);
      }
    }
  }

  /** A key never has two fetches in flight. */
  lemma {:induction false} OneFetchInFlight(ttl: real, es: seq<Event>, c: Caller, d: Caller, key: string)
    requires Legal(ttl, es) && PhaseOf(Run(ttl, es), c) == Fetching(key) && PhaseOf(Run(ttl, es), d) == Fetching(key)
    ensures c == d
  {
    FetcherHoldsLock(ttl, es);
    assert LockFits(Run(ttl, es), c) && LockFits(Run(ttl, es), d);
  }

  /** The lock of a key is held exactly while somebody fetches it: nobody waits for
      nothing. */
  lemma {:induction false} LockHeldIff(ttl: real, es: seq<Event>, key: string)
    requires Legal(ttl, es)
    ensures key in Run(ttl, es).locks <==> exists c :: PhaseOf(Run(ttl, es), c) == Fetching(key)
    ensures key in Run(ttl, es).locks ==> PhaseOf(Run(ttl, es), Run(ttl, es).locks[key]) == Fetching(key)
  {
    FetcherHoldsLock(ttl, es);
    if c :| PhaseOf(Run(ttl, es), c) == Fetching(key) { assert LockFits(Run(ttl, es), c); }
    HolderFetches(ttl, es, key);
  }

  lemma {:induction false} HolderFetches(ttl: real, es: seq<Event>, key: string)
    requires Legal(ttl, es)
    ensures key in Run(ttl, es).locks ==> PhaseOf(Run(ttl, es), Run(ttl, es).locks[key]) == Fetching(key)
  {
    if es != [] {
      var n := |es| - 1;
      HolderFetches(ttl, es[..n], key);
      FetcherHoldsLock(ttl, es[..n]);
      var s, t := Run(ttl, es[..n]), Run(ttl, es);
      assert LockFits(s, es[n].caller);
      assert forall c | c != es[n].caller :: PhaseOf(t, c) == PhaseOf(s, c);
    }
  }

  // ---------- What the cache holds ----------

  /** The last answer to a key, or none. */
  function LastAnswer(es: seq<Event>, key: string): (n: Option<nat>)
    ensures n.Some? ==> n.value < |es| && es[n.value].Answer? && es[n.value].key == key
    ensures forall i | (if n.Some? then n.value else -1) < i < |es| :: !(es[i].Answer? && es[i].key == key)
  {
    if es == [] then None
    else
      var n := |es| - 1;
      if es[n].Answer? && es[n].key == key then Some(n) else LastAnswer(es[..n], key)
  }

  lemma {:induction false} CacheIsLastAnswer(ttl: real, es: seq<Event>, key: string)
    requires Legal(ttl, es) && ttl > 0.0
    ensures var cache, last := Run(ttl, es).cache, LastAnswer(es, key);
            (key in cache <==> last.Some?)
            && (last.Some? ==> cache[key] == Entry(es[last.value].at + ttl, es[last.value].rows))
  {
    if es != [] { CacheIsLastAnswer(ttl, es[..|es| - 1], key); }
  }

  /** Step m starts a fetch. */
  predicate Starts(ttl: real, es: seq<Event>, m: nat) {
    m < |es| && es[m].Enter? && !Fresh(ttl, Run(ttl, es[..m]).cache, es[m].key, es[m].at)
  }

  /** No fetch starts within the time to live of an earlier answer. */
  lemma {:induction false} FetchesAreSpaced(ttl: real, es: seq<Event>, a: nat, m: nat)
    requires Legal(ttl, es) && ttl > 0.0 && a < m && Starts(ttl, es, m)
    requires es[a].Answer? && es[a].key == es[m].key
    ensures es[m].at >= es[a].at + ttl
  {
    StepOfRun(ttl, es, m);
    var key, before := es[m].key, es[..m];
    CacheIsLastAnswer(ttl, before, key);
    assert before[a] == es[a];
    var last := LastAnswer(before, key);
    assert last.Some? && a <= last.value;
    TimesAscend(ttl, before, a, last.value);
  }

  /** What a caller gets at step m. */
  function Served(ttl: real, es: seq<Event>, m: nat): Option<Rows>
    requires m < |es|
  {
    match es[m]
    case Answer(_, _, _, rows) => Some(rows)
    case GiveUp(_, _, _) => None
    case _ =>
      var cache := Run(ttl, es[..m]).cache;
      if Fresh(ttl, cache, es[m].key, es[m].at) then Some(cache[es[m].key].rows) else None
  }

  /** A list served from the cache is the last answer to the key, and less than
      the time to live old. */
  lemma {:induction false} ServedIsRecent(ttl: real, es: seq<Event>, m: nat)
    requires Legal(ttl, es) && m < |es| && (es[m].Ask? || es[m].Enter?) && Served(ttl, es, m).Some?
    ensures var last := LastAnswer(es[..m], es[m].key);
            last.Some? && es[last.value].rows == Served(ttl, es, m).value
            && es[last.value].at <= es[m].at < es[last.value].at + ttl
  {
    StepOfRun(ttl, es, m);
    CacheIsLastAnswer(ttl, es[..m], es[m].key);
    var last := LastAnswer(es[..m], es[m].key);
    assert es[..m][last.value] == es[last.value];
    TimesAscend(ttl, es, last.value, m);
  }

  /** While an answer is recent everybody is served, and nobody waits. */
  lemma {:induction false} RecentAnswerServesAll(ttl: real, es: seq<Event>, a: nat, m: nat)
    requires Legal(ttl, es) && ttl > 0.0 && a < m < |es| && (es[m].Ask? || es[m].Enter?)
    requires es[a].Answer? && es[a].key == es[m].key && es[m].at < es[a].at + ttl
    ensures Served(ttl, es, m).Some? && PhaseOf(Run(ttl, es[..m + 1]), es[m].caller).Idle?
  {
    StepOfRun(ttl, es, m);
    var before := es[..m];
    CacheIsLastAnswer(ttl, before, es[m].key);
    assert before[a] == es[a];
    var last := LastAnswer(before, es[m].key);
    assert last.Some? && a <= last.value;
    TimesAscend(ttl, before, a, last.value);
  }

  /** A caller who is not served waits for the lock, and then fetches; whoever has the
      answer or gives up is out, and the others stay where they are. */
  lemma {:induction false} CallersMove(ttl: real, es: seq<Event>, n: nat, d: Caller)
    requires Legal(ttl, es) && n < |es|
    ensures var c, key := es[n].caller, es[n].key;
            PhaseOf(Run(ttl, es[..n + 1]), d) ==
              if d != c then PhaseOf(Run(ttl, es[..n]), d)
              else if es[n].Ask? && Served(ttl, es, n).None? then Waiting(key)
              else if es[n].Enter? && Served(ttl, es, n).None? then Fetching(key)
              else Idle
    ensures es[n].Answer? ==> Served(ttl, es, n) == Some(es[n].rows)
  {
    StepOfRun(ttl, es, n);
  }

  /** Without a time to live nothing is kept, and only fetched rows are served. */
  lemma {:induction false} NothingKeptWithoutTtl(ttl: real, es: seq<Event>, m: nat)
    requires ttl <= 0.0
    ensures Run(ttl, es).cache == map[]
    ensures m < |es| && !es[m].Answer? ==> Served(ttl, es, m).None?
  {
    if es != [] { NothingKeptWithoutTtl(ttl, es[..|es| - 1], 0); }
  }

  // ---------- The cache as it runs ----------

  lemma {:induction false} OneMoreStep(ttl: real, es: seq<Event>, e: Event)
    requires Legal(ttl, es) && Allowed(Run(ttl, es), e) && (es != [] ==> es[|es| - 1].at <= e.at)
    ensures Legal(ttl, es + [e]) && Run(ttl, es + [e]) == Step(ttl, Run(ttl, es), e)
    ensures (es + [e])[..|es|] == es
  {
    assert (es + [e])[..|es|] == es;
  }

  class SimLists {
    const ttl: real
    var cache: map<string, Entry>
    ghost var locks: map<string, Caller>
    ghost var phases: map<Caller, Phase>
    ghost var trace: seq<Event>

    ghost predicate Valid()
      reads this
    {
      Legal(ttl, trace) && System(cache, locks, phases) == Run(ttl, trace)
    }

    ghost predicate Next(e: Event)
      reads this
    {
      Allowed(System(cache, locks, phases), e) && (trace != [] ==> trace[|trace| - 1].at <= e.at)
    }

    constructor (ttlSetting: real)
      ensures Valid() && trace == [] && ttl == if ttlSetting < 0.0 then 0.0 else ttlSetting
    {
      ttl := if ttlSetting < 0.0 then 0.0 else ttlSetting;
      cache, locks, phases, trace := map[], map[], map[], [];
    }

    ghost method Note(e: Event)
      requires Legal(ttl, trace) && Allowed(Run(ttl, trace), e) && (trace != [] ==> trace[|trace| - 1].at <= e.at)
      requires cache == Step(ttl, Run(ttl, trace), e).cache
      modifies this`locks, this`phases, this`trace
      ensures Valid() && trace == old(trace) + [e] && trace[..|old(trace)|] == old(trace)
    {
      OneMoreStep(ttl, trace, e);
      locks, phases := Step(ttl, Run(ttl, trace), e).locks, Step(ttl, Run(ttl, trace), e).phases;
      trace := trace + [e];
    }

    /** The look before the lock. */
    method LookFirst(c: Caller, key: string, now: real) returns (rows: Option<Rows>)
      requires Valid() && Next(Ask(c, key, now))
      modifies this
      ensures Valid() && trace == old(trace) + [Ask(c, key, now)]
      ensures rows == Served(ttl, trace, |old(trace)|)
    {
      rows := if ttl > 0.0 && key in cache && cache[key].expiresAt > now then Some(cache[key].rows) else None;
      Note(Ask(c, key, now));
    }

    /** The look under the lock; without a hit, the caller goes on to fetch. */
    method LookAgain(c: Caller, key: string, now: real) returns (rows: Option<Rows>)
      requires Valid() && Next(Enter(c, key, now))
      modifies this
      ensures Valid() && trace == old(trace) + [Enter(c, key, now)]
      ensures rows == Served(ttl, trace, |old(trace)|) && (rows.None? <==> Starts(ttl, trace, |old(trace)|))
    {
      rows := if ttl > 0.0 && key in cache && cache[key].expiresAt > now then Some(cache[key].rows) else None;
      Note(Enter(c, key, now));
    }

    method Store(c: Caller, key: string, now: real, rows: Rows)
      requires Valid() && Next(Answer(c, key, now, rows))
      modifies this
      ensures Valid() && trace == old(trace) + [Answer(c, key, now, rows)]
    {
      if ttl > 0.0 { cache := cache[key := Entry(now + ttl, rows)]; }
      Note(Answer(c, key, now, rows));
    }
  }
}
