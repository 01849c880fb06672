/** Statistics over a provider's SIMs: counters filled in place while at most a
    hundred pages are read, against counting a list. */
module Stats {
  import opened Option
  import opened Text
  import opened Paging
  import opened Adapters
  import opened Unique

  /** What is counted of a SIM: its status ("" for none) and when it last
      updated its location. */
  datatype Sub = Sub(status: string, lastSeen: Option<real>)

  datatype Stats = Stats(total: nat, byStatus: map<string, nat>, byGroup: map<string, nat>, stale: nat)

  /** The status groups, and the time before which a SIM counts as stale. */
  datatype Rules = Rules(group: string -> string, threshold: real)

  const PAGE_LIMIT := 500
  const MAX_PAGES := 100

  // ---------- Counting a list ----------

  function StatusKey(sub: Sub): string { if sub.status == "" then "UNKNOWN" else sub.status }

  predicate IsStale(rules: Rules, sub: Sub) { sub.lastSeen.None? || sub.lastSeen.value < rules.threshold }

  function Count(keys: seq<string>, key: string): nat {
    if keys == [] then 0 else Count(keys[..|keys| - 1], key) + if keys[|keys| - 1] == key then 1 else 0
  }

  /** How often each key occurs. */
  function Tally(keys: seq<string>): map<string, nat> { map k | k in keys :: Count(keys, k) }

  function Statuses(subs: seq<Sub>): (r: seq<string>)
    ensures |r| == |subs|
  {
    seq(|subs|, i requires 0 <= i < |subs| => StatusKey(subs[i]))
  }

  function Groups(rules: Rules, subs: seq<Sub>): (r: seq<string>)
    ensures |r| == |subs|
  {
    seq(|subs|, i requires 0 <= i < |subs| => rules.group(subs[i].status))
  }

  function StaleCount(rules: Rules, subs: seq<Sub>): nat {
    if subs == [] then 0
    else StaleCount(rules, subs[..|subs| - 1]) + if IsStale(rules, subs[|subs| - 1]) then 1 else 0
  }

  /** The reference: every number counted on its own. */
  function Direct(rules: Rules, subs: seq<Sub>): Stats {
    Stats(|subs|, Tally(Statuses(subs)), Tally(Groups(rules, subs)), StaleCount(rules, subs))
  }

  // ---------- One more SIM ----------

  function Bump(m: map<string, nat>, key: string, more: nat): map<string, nat> {
    m[key := (if key in m then m[key] else 0) + more]
  }

  function AddSub(rules: Rules, stats: Stats, sub: Sub): Stats {
    Stats(stats.total + 1, Bump(stats.byStatus, StatusKey(sub), 1), Bump(stats.byGroup, rules.group(sub.status), 1),
          stats.stale + if IsStale(rules, sub) then 1 else 0)
  }

  lemma {:induction false} CountAbsent(keys: seq<string>, key: string)
    ensures Count(keys, key) == 0 <==> key !in keys
  {
    if keys != [] {
      CountAbsent(keys[..|keys| - 1], key);
      assert keys == keys[..|keys| - 1] + [keys[|keys| - 1]];
    }
  }

  lemma TallySnoc(keys: seq<string>, key: string)
    ensures Tally(keys + [key]) == Bump(Tally(keys), key, 1)
  {
    assert (keys + [key])[..|keys|] == keys;
    CountAbsent(keys, key);
    forall k | k in keys + [key] ensures Count(keys + [key], k) == Count(keys, k) + if k == key then 1 else 0 {
    }
  }

  lemma AddSubCounts(rules: Rules, subs: seq<Sub>, sub: Sub)
    ensures AddSub(rules, Direct(rules, subs), sub) == Direct(rules, subs + [sub])
  {
    assert Statuses(subs + [sub]) == Statuses(subs) + [StatusKey(sub)];
    assert Groups(rules, subs + [sub]) == Groups(rules, subs) + [rules.group(sub.status)];
    TallySnoc(Statuses(subs), StatusKey(sub));
    TallySnoc(Groups(rules, subs), rules.group(sub.status));
    assert (subs + [sub])[..|subs|] == subs;
  }

  // ---------- What is counted ----------

  lemma {:induction false} CountIsSize(keys: seq<string>, key: string)
    ensures Count(keys, key) == |set i | 0 <= i < |keys| && keys[i] == key|
  {
    if keys != [] {
      var n := |keys| - 1;
      var front, all := set i | 0 <= i < n && keys[..n][i] == key, set i | 0 <= i < |keys| && keys[i] == key;
      CountIsSize(keys[..n], key);
      assert all == if keys[n] == key then front + {n} else front;
    }
  }

  /** Under each status stands the number of SIMs that have it, under UNKNOWN that
      of those that have none; there is no entry for anything else. */
  lemma StatusCountsAre(rules: Rules, subs: seq<Sub>, key: string)
    ensures var matching := set i | 0 <= i < |subs| &&
                                    (if subs[i].status == "" then "UNKNOWN" else subs[i].status) == key;
            var m := Direct(rules, subs).byStatus;
            (key in m <==> matching != {}) && (key in m ==> m[key] == |matching|)
  {
    var keys := Statuses(subs);
    CountIsSize(keys, key);
    assert (set i | 0 <= i < |subs| && (if subs[i].status == "" then "UNKNOWN" else subs[i].status) == key)
        == set i | 0 <= i < |keys| && keys[i] == key;
    KeyOfSome(keys, key);
  }

  lemma KeyOfSome(keys: seq<string>, key: string)
    ensures key in Tally(keys) <==> (set i | 0 <= i < |keys| && keys[i] == key) != {}
  {
    var places := set i | 0 <= i < |keys| && keys[i] == key;
    if key in keys {
      var i :| 0 <= i < |keys| && keys[i] == key;
      assert i in places;
    } else {
      assert places == {};
    }
  }

  /** The same for the groups. */
  lemma GroupCountsAre(rules: Rules, subs: seq<Sub>, key: string)
    ensures var matching := set i | 0 <= i < |subs| && rules.group(subs[i].status) == key;
            var m := Direct(rules, subs).byGroup;
            (key in m <==> matching != {}) && (key in m ==> m[key] == |matching|)
  {
    var keys := Groups(rules, subs);
    CountIsSize(keys, key);
    assert (set i | 0 <= i < |subs| && rules.group(subs[i].status) == key)
        == set i | 0 <= i < |keys| && keys[i] == key;
    KeyOfSome(keys, key);
  }

  /** Stale are the SIMs that were last seen before the threshold, or never. */
  lemma {:induction false} StaleCountIs(rules: Rules, subs: seq<Sub>)
    ensures Direct(rules, subs).stale ==
            |set i | 0 <= i < |subs| && (subs[i].lastSeen.None? || subs[i].lastSeen.value < rules.threshold)|
    ensures Direct(rules, subs).total == |subs|
  {
    if subs != [] {
      var n := |subs| - 1;
      var init := subs[..n];
      StaleCountIs(rules, init);
      var front := set i | 0 <= i < |init| && (init[i].lastSeen.None? || init[i].lastSeen.value < rules.threshold);
      var all := set i | 0 <= i < |subs| && (subs[i].lastSeen.None? || subs[i].lastSeen.value < rules.threshold);
      assert all == if IsStale(rules, subs[n]) then front + {n} else front;
      assert n !in front;
    }
  }

  // ---------- The counts fit together ----------

  /** The numbers of a table, added up along a list of its keys. */
  function SumOver(m: map<string, nat>, ks: seq<string>): nat
    requires forall k | k in ks :: k in m
  {
    if ks == [] then 0 else SumOver(m, ks[..|ks| - 1]) + m[ks[|ks| - 1]]
  }

  function SumOfCounts(keys: seq<string>, ks: seq<string>): nat {
    if ks == [] then 0 else SumOfCounts(keys, ks[..|ks| - 1]) + Count(keys, ks[|ks| - 1])
  }

  lemma {:induction false} SumOfCountsSnoc(keys: seq<string>, key: string, ks: seq<string>)
    requires NoRepeats(ks)
    ensures SumOfCounts(keys + [key], ks) == SumOfCounts(keys, ks) + if key in ks then 1 else 0
  {
    if ks != [] {
      var front, last := ks[..|ks| - 1], ks[|ks| - 1];
      SumOfCountsSnoc(keys, key, front);
      assert (keys + [key])[..|keys|] == keys;
      assert ks == front + [last];
      forall i | 0 <= i < |front| ensures front[i] != last { assert ks[i] != ks[|ks| - 1]; }
      assert last !in front;
    }
  }

  lemma {:induction false} CountsOfNothing(ks: seq<string>)
    ensures SumOfCounts([], ks) == 0
  {
    if ks != [] { CountsOfNothing(ks[..|ks| - 1]); }
  }

  lemma {:induction false} CountsSumToLength(keys: seq<string>, ks: seq<string>)
    requires NoRepeats(ks) && forall k | k in keys :: k in ks
    ensures SumOfCounts(keys, ks) == |keys|
  {
    if keys == [] {
      CountsOfNothing(ks);
    } else {
      var front, last := keys[..|keys| - 1], keys[|keys| - 1];
      CountsSumToLength(front, ks);
      SumOfCountsSnoc(front, last, ks);
      assert keys == front + [last];
    }
  }

  lemma {:induction false} SumIsSumOfCounts(keys: seq<string>, ks: seq<string>)
    requires forall k | k in ks :: k in keys
    ensures SumOver(Tally(keys), ks) == SumOfCounts(keys, ks)
  {
    if ks != [] { SumIsSumOfCounts(keys, ks[..|ks| - 1]); }
  }

  ghost predicate Enumerates(ks: seq<string>, m: map<string, nat>) { NoRepeats(ks) && forall k :: k in ks <==> k in m }

  lemma {:induction false} TallySumsToLength(keys: seq<string>, ks: seq<string>)
    requires Enumerates(ks, Tally(keys))
    ensures (forall k | k in ks :: k in Tally(keys)) && SumOver(Tally(keys), ks) == |keys|
  {
    assert forall k | k in ks :: k in Tally(keys) && k in keys;
    assert forall k | k in keys :: k in Tally(keys) && k in ks;
    SumIsSumOfCounts(keys, ks);
    CountsSumToLength(keys, ks);
  }

  lemma {:induction false} StaleIsPart(rules: Rules, subs: seq<Sub>)
    ensures StaleCount(rules, subs) <= |subs|
  {
    if subs != [] { StaleIsPart(rules, subs[..|subs| - 1]); }
  }

  /** Status counts and group counts each add up to the total, and the stale
      SIMs are part of it. */
  lemma {:induction false} CountsAddUp(rules: Rules, subs: seq<Sub>, statuses: seq<string>, groups: seq<string>)
    requires Enumerates(statuses, Direct(rules, subs).byStatus) && Enumerates(groups, Direct(rules, subs).byGroup)
    ensures var stats := Direct(rules, subs);
            (forall k | k in statuses :: k in stats.byStatus) && (forall k | k in groups :: k in stats.byGroup)
            && SumOver(stats.byStatus, statuses) == stats.total && SumOver(stats.byGroup, groups) == stats.total
            && stats.stale <= stats.total
  {
    TallySumsToLength(Statuses(subs), statuses);
    TallySumsToLength(Groups(rules, subs), groups);
    StaleIsPart(rules, subs);
  }

  // ---------- Merging ----------

  function MergeMaps(a: map<string, nat>, b: map<string, nat>): map<string, nat> {
    map k | k in a.Keys + b.Keys :: (if k in a then a[k] else 0) + if k in b then b[k] else 0
  }

  function Merge(a: Stats, b: Stats): Stats {
    Stats(a.total + b.total, MergeMaps(a.byStatus, b.byStatus), MergeMaps(a.byGroup, b.byGroup), a.stale + b.stale)
  }

  lemma MergeNothing(a: map<string, nat>)
    ensures MergeMaps(a, map[]) == a
  {
  }

  lemma MergeOneMore(a: map<string, nat>, b: map<string, nat>, key: string, n: nat)
    requires key !in b
    ensures MergeMaps(a, b[key := n]) == Bump(MergeMaps(a, b), key, n)
  {
  }

  lemma {:induction false} CountConcat(a: seq<string>, b: seq<string>, key: string)
    ensures Count(a + b, key) == Count(a, key) + Count(b, key)
  {
    if b == [] {
      assert a + b == a;
    } else {
      CountConcat(a, b[..|b| - 1], key);
      assert (a + b)[..|a + b| - 1] == a + b[..|b| - 1];
    }
  }

  lemma TallyConcat(a: seq<string>, b: seq<string>)
    ensures Tally(a + b) == MergeMaps(Tally(a), Tally(b))
  {
    forall k | k in a + b ensures Count(a + b, k) == Count(a, k) + Count(b, k) { CountConcat(a, b, k); }
    forall k ensures (k !in a ==> Count(a, k) == 0) && (k !in b ==> Count(b, k) == 0) {
      CountAbsent(a, k);
      CountAbsent(b, k);
    }
  }

  lemma {:induction false} StaleConcat(rules: Rules, a: seq<Sub>, b: seq<Sub>)
    ensures StaleCount(rules, a + b) == StaleCount(rules, a) + StaleCount(rules, b)
  {
    if b == [] {
      assert a + b == a;
    } else {
      StaleConcat(rules, a, b[..|b| - 1]);
      assert (a + b)[..|a + b| - 1] == a + b[..|b| - 1];
    }
  }

  /** Merging two providers' statistics counts their lists together. */
  lemma MergeCountsBoth(rules: Rules, a: seq<Sub>, b: seq<Sub>)
    ensures Merge(Direct(rules, a), Direct(rules, b)) == Direct(rules, a + b)
  {
    assert Statuses(a + b) == Statuses(a) + Statuses(b);
    assert Groups(rules, a + b) == Groups(rules, a) + Groups(rules, b);
    TallyConcat(Statuses(a), Statuses(b));
    TallyConcat(Groups(rules, a), Groups(rules, b));
    StaleConcat(rules, a, b);
  }

  // ---------- The pages read ----------

  /** A provider as the collection sees it: its pages, the filters applied to
      them afterwards, and what is known of each SIM. */
  datatype Provider = Provider(fetch: Option<string> -> Fetch, keep: Sim -> bool, describe: Sim -> Sub)

  datatype Reading = Raised | Read(sims: seq<Sim>, ended: bool)

  /** `not cursor` */
  predicate IsOver(next: Option<string>) { next.None? || next.value == "" }

  /** At most n pages from a cursor on. */
  function Pages(p: Provider, cursor: Option<string>, n: nat): Reading
    decreases n
  {
    if n == 0 then Read([], false)
    else match p.fetch(cursor)
      case Failed => Raised
      case Page(sims, next) =>
        if IsOver(next) then Read(sims, true)
        else match Pages(p, next, n - 1)
          case Raised => Raised
          case Read(more, ended) => Read(sims + more, ended)
  }

  function Shown(p: Provider, sims: seq<Sim>): seq<Sub> {
    if sims == [] then []
    else
      var last := sims[|sims| - 1];
      Shown(p, sims[..|sims| - 1]) + if p.keep(last) then [p.describe(last)] else []
  }

  lemma {:induction false} ShownConcat(p: Provider, a: seq<Sim>, b: seq<Sim>)
    ensures Shown(p, a + b) == Shown(p, a) + Shown(p, b)
  {
    if b == [] {
      assert a + b == a;
    } else {
      ShownConcat(p, a, b[..|b| - 1]);
      assert (a + b)[..|a + b| - 1] == a + b[..|b| - 1];
    }
  }

  /** A SIM is counted exactly if it passes the filter, each by itself. */
  lemma {:induction false} ShownOne(p: Provider, sim: Sim)
    ensures Shown(p, [sim]) == if p.keep(sim) then [p.describe(sim)] else []
    ensures Shown(p, []) == []
  {
    assert [sim][..0] == [];
  }

  /** An empty cursor ends the reading like none; a failure ends it with nothing. */
  lemma {:induction false} EndOfReading(p: Provider, cursor: Option<string>, n: nat)
    requires n > 0
    ensures p.fetch(cursor).Page? && p.fetch(cursor).next in {None, Some("")} ==>
              Pages(p, cursor, n) == Read(p.fetch(cursor).items, true)
    ensures p.fetch(cursor).Failed? ==> Pages(p, cursor, n) == Raised
  {
  }

  /** The adapter pages through a stable list; its cursors are never empty. */
  ghost predicate PagesThrough(p: Provider, s: Stream) {
    forall c | OnTrack(s, At(c)) :: Meets(s, c, PAGE_LIMIT, p.fetch(c)) && p.fetch(c).next != Some("")
  }

  /** Ended means that the rest of the list was read, all of it; otherwise a
      part of it from the front. */
  lemma {:induction false} EndedReadsAll(p: Provider, s: Stream, cursor: Option<string>, n: nat)
    requires PagesThrough(p, s) && OnTrack(s, At(cursor))
    ensures var r := Pages(p, cursor, n);
            r.Read? && (if r.ended then r.sims == s.items[s.pos(cursor)..] else r.sims <= s.items[s.pos(cursor)..])
    decreases n
  {
    if n > 0 {
      var f := p.fetch(cursor);
      assert Meets(s, cursor, PAGE_LIMIT, f);
      if f.next.Some? {
        EndedReadsAll(p, s, f.next, n - 1);
        assert s.items[s.pos(cursor)..] == f.items + s.items[s.pos(f.next)..];
      }
    }
  }

  /** Statistics that are not partial count the whole list, filtered. */
  lemma {:induction false} NotPartialCountsAll(p: Provider, s: Stream)
    requires PagesThrough(p, s) && OnTrack(s, At(None)) && s.pos(None) == 0
    ensures var r := Pages(p, None, MAX_PAGES);
            r.Read? && (r.ended ==> r.sims == s.items) && (!r.ended ==> r.sims <= s.items)
  {
    EndedReadsAll(p, s, None, MAX_PAGES);
    assert s.items[0..] == s.items;
  }

  // ---------- How long a list may be ----------

  /** Pages of a fixed size; `eager` tells whether an exactly full page is taken
      to mean that there is more. */
  ghost predicate FixedPages(p: Provider, s: Stream, size: nat, eager: bool) {
    forall c | OnTrack(s, At(c)) ::
      var left := |s.items| - s.pos(c);
      p.fetch(c).Page? && |p.fetch(c).items| == Min(size, left)
      && (p.fetch(c).next.Some? <==> left > size || (eager && left == size))
  }

  predicate TooLong(length: int, room: int, eager: bool) { length > room || (eager && length == room) }

  lemma OnePageLess(n: nat, size: nat)
    requires n > 0
    ensures n * size == size + (n - 1) * size && (n - 1) * size >= 0 && (n == 1 ==> n * size == size)
  {
  }

  lemma {:induction false} PartialIffTooLong(p: Provider, s: Stream, size: nat, eager: bool, cursor: Option<string>,
                                             n: nat)
    requires PagesThrough(p, s) && FixedPages(p, s, size, eager) && OnTrack(s, At(cursor)) && n > 0 && size > 0
    ensures Pages(p, cursor, n).Read?
    ensures !Pages(p, cursor, n).ended <==> TooLong(|s.items| - s.pos(cursor), n * size, eager)
    decreases n
  {
    var f := p.fetch(cursor);
    assert Meets(s, cursor, PAGE_LIMIT, f);
    OnePageLess(n, size);
    if f.next.Some? && n > 1 {
      var room := (n - 1) * size;
      PartialIffTooLong(p, s, size, eager, f.next, n - 1);
      assert TooLong(|s.items| - s.pos(cursor), size + room, eager)
             <==> TooLong(|s.items| - s.pos(f.next), room, eager);
    }
  }

  /** Kite's statistics are partial from 50,000 SIMs on. */
  lemma KitePartialIff(list: seq<Sim>, keep: Sim -> bool, describe: Sim -> Sub)
    ensures var r := Pages(Provider(c => KitePage(list, c, PAGE_LIMIT), keep, describe), None, MAX_PAGES);
            r.Read? && (!r.ended <==> |list| >= 50000)
  {
    var p, s := Provider(c => KitePage(list, c, PAGE_LIMIT), keep, describe), OffsetStream(list);
    StartOfDecimal(0);
    forall c | OnTrack(s, At(c)) ensures Meets(s, c, PAGE_LIMIT, p.fetch(c)) && p.fetch(c).next != Some("") {
      KiteMeets(list, c, PAGE_LIMIT);
      DecimalIsNotEmpty(Start(c) + |p.fetch(c).items|);
    }
    PartialIffTooLong(p, s, 500, true, None, MAX_PAGES);
  }

  lemma MoabitsPagesThrough(list: seq<Sim>, p: Provider)
    requires forall c :: p.fetch(c) == MoabitsPage(list, c, PAGE_LIMIT)
    ensures PagesThrough(p, OffsetStream(list)) && FixedPages(p, OffsetStream(list), 500, false)
  {
    var s := OffsetStream(list);
    forall c | OnTrack(s, At(c)) ensures Meets(s, c, PAGE_LIMIT, p.fetch(c)) && p.fetch(c).next != Some("") {
      MoabitsMeets(list, c, PAGE_LIMIT);
      DecimalIsNotEmpty(Start(c) + |p.fetch(c).items|);
    }
  }

  /** Moabits' are partial beyond 50,000. */
  lemma MoabitsPartialIff(list: seq<Sim>, keep: Sim -> bool, describe: Sim -> Sub)
    ensures var r := Pages(Provider(c => MoabitsPage(list, c, PAGE_LIMIT), keep, describe), None, MAX_PAGES);
            r.Read? && (!r.ended <==> |list| > 50000)
  {
    var p := Provider(c => MoabitsPage(list, c, PAGE_LIMIT), keep, describe);
    StartOfDecimal(0);
    MoabitsPagesThrough(list, p);
    PartialIffTooLong(p, OffsetStream(list), 500, false, None, MAX_PAGES);
  }

  /** Tele2 cuts every page to 50, so its statistics are partial beyond 5,000. */
  lemma Tele2PartialIff(list: seq<Sim>, w: Window, keep: Sim -> bool, describe: Sim -> Sub)
    requires Formatted(w) && w.since.Some? && forall s :: NoBar(w.defaultTill(s))
    ensures var r := Pages(Provider(c => Tele2Page(list, w, c, PAGE_LIMIT), keep, describe), None, MAX_PAGES);
            r.Read? && (!r.ended <==> |list| > 5000)
  {
    var p, s := Provider(c => Tele2Page(list, w, c, PAGE_LIMIT), keep, describe), Tele2Stream(list, w, 50);
    assert s.pos(None) == 0;
    forall c | OnTrack(s, At(c)) ensures Meets(s, c, PAGE_LIMIT, p.fetch(c)) && p.fetch(c).next != Some("") {
      Tele2Meets(list, w, c, PAGE_LIMIT);
    }
    forall c | OnTrack(s, At(c))
      ensures var left := |s.items| - s.pos(c);
              |p.fetch(c).items| == Min(50, left) && (p.fetch(c).next.Some? <==> left > 50)
    {
      PageStart(CursorFields(c).page, 50);
    }
    PartialIffTooLong(p, s, 50, false, None, MAX_PAGES);
  }

  lemma {:induction false} DecimalIsNotEmpty(n: nat)
    ensures Decimal(n) != ""
  {
  }

  // ---------- The counters as they run ----------

  class Counters {
    var total: nat
    var byStatus: map<string, nat>
    var byGroup: map<string, nat>
    var stale: nat

    function Value(): Stats
      reads this
    {
      Stats(total, byStatus, byGroup, stale)
    }

    constructor ()
      ensures Value() == Stats(0, map[], map[], 0)
    {
      total, byStatus, byGroup, stale := 0, map[], map[], 0;
    }

    /** `_stats_add_sub` */
    method Add(rules: Rules, sub: Sub)
      modifies this
      ensures Value() == AddSub(rules, old(Value()), sub)
    {
      total := total + 1;
      var statusKey := if sub.status != "" then sub.status else "UNKNOWN";
      byStatus := byStatus[statusKey := (if statusKey in byStatus then byStatus[statusKey] else 0) + 1];
      var group := rules.group(sub.status);
      byGroup := byGroup[group := (if group in byGroup then byGroup[group] else 0) + 1];
      if sub.lastSeen.None? || sub.lastSeen.value < rules.threshold { stale := stale + 1; }
    }

    /** Count one page, filtered. */
    method AddPage(rules: Rules, p: Provider, sims: seq<Sim>, ghost subs: seq<Sub>)
      requires Value() == Direct(rules, subs)
      modifies this
      ensures Value() == Direct(rules, subs + Shown(p, sims))
    {
      assert subs + [] == subs;
      for k := 0 to |sims|
        invariant Value() == Direct(rules, subs + Shown(p, sims[..k]))
      {
        assert sims[..k + 1][..k] == sims[..k];
        if p.keep(sims[k]) {
          Add(rules, p.describe(sims[k]));
          AddSubCounts(rules, subs + Shown(p, sims[..k]), p.describe(sims[k]));
          assert subs + Shown(p, sims[..k + 1]) == subs + Shown(p, sims[..k]) + [p.describe(sims[k])];
        } else {
          assert Shown(p, sims[..k + 1]) == Shown(p, sims[..k]);
        }
      }
      assert sims[..|sims|] == sims;
    }

    /** `_collect_provider_stats_with_credentials`, into fresh counters. */
    method Collect(rules: Rules, p: Provider) returns (raised: bool, partial: bool)
      requires Value() == Stats(0, map[], map[], 0)
      modifies this
      ensures var r := Pages(p, None, MAX_PAGES);
              raised == r.Raised? && (r.Read? ==> Value() == Direct(rules, Shown(p, r.sims)) && partial == !r.ended)
    {
      var cursor: Option<string> := None;
      var left := MAX_PAGES;
      ghost var sims: seq<Sim> := [];
      assert Direct(rules, Shown(p, [])) == Stats(0, map[], map[], 0);
      while left > 0
        invariant 0 <= left <= MAX_PAGES
        invariant Value() == Direct(rules, Shown(p, sims))
        invariant Pages(p, None, MAX_PAGES) == Appended(sims, Pages(p, cursor, left))
      {
        var f := p.fetch(cursor);
        if f.Failed? { return true, false; }
        AddPage(rules, p, f.items, Shown(p, sims));
        ShownConcat(p, sims, f.items);
        OnePage(p, cursor, left, sims);
        sims := sims + f.items;
        if IsOver(f.next) { return false, false; }
        cursor, left := f.next, left - 1;
      }
      assert sims + [] == sims;
      return false, true;
    }

    /** `_merge_stats` */
    method MergeIn(extra: Stats)
      modifies this
      ensures Value() == Merge(old(Value()), extra)
    {
      total, stale := total + extra.total, stale + extra.stale;
      byStatus := MergeInto(byStatus, extra.byStatus);
      byGroup := MergeInto(byGroup, extra.byGroup);
    }

    static method MergeInto(a: map<string, nat>, b: map<string, nat>) returns (r: map<string, nat>)
      ensures r == MergeMaps(a, b)
    {
      r := a;
      var todo := b.Keys;
      ghost var done: map<string, nat> := map[];
      MergeNothing(a);
      while todo != {}
        invariant done.Keys == b.Keys - todo && todo <= b.Keys && forall k | k in done :: done[k] == b[k]
        invariant r == MergeMaps(a, done)
        decreases |todo|
      {
        var k :| k in todo;
        MergeOneMore(a, done, k, b[k]);
        r := r[k := (if k in r then r[k] else 0) + b[k]];
        done, todo := done[k := b[k]], todo - {k};
      }
      assert done == b;
    }
  }

  function Appended(sims: seq<Sim>, rest: Reading): Reading {
    match rest
    case Raised => Raised
    case Read(more, ended) => Read(sims + more, ended)
  }

  lemma OnePage(p: Provider, cursor: Option<string>, n: nat, sims: seq<Sim>)
    requires n > 0 && p.fetch(cursor).Page?
    ensures var f := p.fetch(cursor);
            Appended(sims, Pages(p, cursor, n))
            == if IsOver(f.next) then Read(sims + f.items, true) else Appended(sims + f.items, Pages(p, f.next, n - 1))
  {
    var f := p.fetch(cursor);
    if !IsOver(f.next) && Pages(p, f.next, n - 1).Read? {
      assert sims + (f.items + Pages(p, f.next, n - 1).sims) == sims + f.items + Pages(p, f.next, n - 1).sims;
    }
  }
}
