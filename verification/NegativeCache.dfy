/** The cache of ICCIDs no provider knows: an insertion-ordered dictionary of
    expiry times with room for 10,000, against the plain history of what was
    recorded and forgotten. */
module NegativeCache {
  import opened Option
  import opened Unique

  datatype Key = Key(company: string, iccid: string)

  const TTL := 60.0
  const MAX_ENTRIES := 10000

  datatype Event =
    | Record(key: Key, at: real)
    | Ask(key: Key, at: real)
    | Forget(key: Key, at: real)

  /** A Python dictionary: its items in insertion order. `evicted` collects the
      keys that lost their entry to the size limit; the program keeps no such set. */
  datatype Cache = Cache(order: seq<Key>, table: map<Key, real>, evicted: set<Key>)

  const EMPTY := Cache([], map[], {})

  // ---------- Dictionary operations ----------

  function Without(order: seq<Key>, key: Key): seq<Key> {
    if order == [] then []
    else Without(order[..|order| - 1], key) + if order[|order| - 1] == key then [] else [order[|order| - 1]]
  }

  function Pop(c: Cache, key: Key): Cache {
    c.(order := Without(c.order, key), table := c.table - {key})
  }

  /** An update in place keeps the key's position. */
  function Put(c: Cache, key: Key, expiresAt: real): Cache {
    c.(order := if key in c.table then c.order else c.order + [key], table := c.table[key := expiresAt])
  }

  function Unexpired(order: seq<Key>, table: map<Key, real>, now: real): seq<Key> {
    if order == [] then []
    else
      var last := order[|order| - 1];
      Unexpired(order[..|order| - 1], table, now) + if last in table && table[last] <= now then [] else [last]
  }

  function DropExpired(c: Cache, now: real): Cache {
    c.(order := Unexpired(c.order, c.table, now), table := map k | k in c.table && c.table[k] > now :: c.table[k])
  }

  /** Make room: first by dropping what has expired, then by dropping the entry
      that was inserted first. */
  function MakeRoom(c: Cache, now: real): Cache {
    if |c.order| < MAX_ENTRIES then c
    else
      var d := DropExpired(c, now);
      if |d.order| < MAX_ENTRIES then d
      else Pop(d, d.order[0]).(evicted := d.evicted + {d.order[0]})
  }

  predicate Hit(c: Cache, key: Key, now: real) { key in c.table && now < c.table[key] }

  function Step(c: Cache, e: Event): Cache {
    match e
    case Record(key, now) =>
      var roomy := MakeRoom(c, now);
      Put(roomy, key, now + TTL).(evicted := roomy.evicted - {key})
    case Ask(key, now) => if key in c.table && now >= c.table[key] then Pop(c, key) else c
    case Forget(key, _) => Pop(c, key).(evicted := c.evicted - {key})
  }

  // ---------- Runs ----------

  function Run(es: seq<Event>): Cache {
    if es == [] then EMPTY else Step(Run(es[..|es| - 1]), es[|es| - 1])
  }

  predicate Timely(es: seq<Event>) { forall i, j | 0 <= i <= j < |es| :: es[i].at <= es[j].at }

  predicate Until(es: seq<Event>, now: real) { forall i | 0 <= i < |es| :: es[i].at <= now }

  /** The last time a key was recorded or forgotten. */
  function LastMention(es: seq<Event>, key: Key): (n: Option<nat>)
    ensures n.Some? ==> n.value < |es| && !es[n.value].Ask? && es[n.value].key == key
    ensures forall i | (if n.Some? then n.value else -1) < i < |es| :: es[i].Ask? || es[i].key != key
  {
    if es == [] then None
    else
      var n := |es| - 1;
      if !es[n].Ask? && es[n].key == key then Some(n) else LastMention(es[..n], key)
  }

  /** The reference: an unbounded table in which a record lasts 60 seconds. */
  predicate Recorded(es: seq<Event>, key: Key, now: real) {
    var n := LastMention(es, key);
    n.Some? && es[n.value].Record? && now < es[n.value].at + 60.0
  }

  // ---------- What every step keeps ----------

  ghost predicate Shape(c: Cache) {
    && NoRepeats(c.order) && (forall k :: k in c.order <==> k in c.table)
    && |c.order| <= 10000 && forall k | k in c.table :: k !in c.evicted
  }

  lemma {:induction false} WithoutFacts(order: seq<Key>, key: Key)
    requires NoRepeats(order)
    ensures NoRepeats(Without(order, key)) && |Without(order, key)| <= |order|
    ensures forall k :: k in Without(order, key) <==> k in order && k != key
    ensures |Without(order, key)| == |order| - if key in order then 1 else 0
  {
    if order != [] {
      var front, last := order[..|order| - 1], order[|order| - 1];
      WithoutFacts(front, key);
      assert order == front + [last];
      forall i | 0 <= i < |front| ensures front[i] != last { assert order[i] != order[|order| - 1]; }
      assert last !in front;
    }
  }

  lemma {:induction false} UnexpiredFacts(order: seq<Key>, table: map<Key, real>, now: real)
    requires NoRepeats(order)
    ensures var r := Unexpired(order, table, now);
            NoRepeats(r) && |r| <= |order| && forall k :: k in r <==> k in order && !(k in table && table[k] <= now)
  {
    if order != [] {
      UnexpiredFacts(order[..|order| - 1], table, now);
      assert order == order[..|order| - 1] + [order[|order| - 1]];
    }
  }

  lemma PopKeepsShape(c: Cache, key: Key)
    requires Shape(c)
    ensures Shape(Pop(c, key))
  {
    WithoutFacts(c.order, key);
  }

  lemma RoomIsMade(c: Cache, now: real)
    requires Shape(c)
    ensures var r := MakeRoom(c, now);
            Shape(r) && |r.order| < MAX_ENTRIES
            && (forall k | k in r.table :: k in c.table && r.table[k] == c.table[k])
            && (forall k | k in c.table && k !in r.table :: c.table[k] <= now || k in r.evicted)
            && c.evicted <= r.evicted
            && (forall k | k in r.evicted && k !in c.evicted :: k in c.table && k !in r.table)
  {
    if |c.order| >= MAX_ENTRIES {
      UnexpiredFacts(c.order, c.table, now);
      var d := DropExpired(c, now);
      if |d.order| >= MAX_ENTRIES {
        WithoutFacts(d.order, d.order[0]);
        assert d.order[0] in d.order;
      }
    }
  }

  /** How one key's entry follows from what was last said about the key. */
  ghost predicate Follows(c: Cache, es: seq<Event>, key: Key, now: real) {
    var n := LastMention(es, key);
    && (key in c.table ==> n.Some? && es[n.value].Record? && c.table[key] == es[n.value].at + TTL && key !in c.evicted)
    && (n.Some? && es[n.value].Record? && key !in c.table ==> es[n.value].at + TTL <= now || key in c.evicted)
  }

  lemma {:induction false} LastMentionSnoc(es: seq<Event>, e: Event, key: Key)
    ensures LastMention(es + [e], key) == if !e.Ask? && e.key == key then Some(|es|) else LastMention(es, key)
  {
    assert (es + [e])[..|es|] == es;
  }

  lemma StepFollows(c: Cache, es: seq<Event>, e: Event, key: Key, now: real)
    requires Shape(c) && Follows(c, es, key, now) && now <= e.at
    ensures Follows(Step(c, e), es + [e], key, e.at)
  {
    LastMentionSnoc(es, e, key);
    if e.Record? { RoomIsMade(c, e.at); }
    assert forall i | 0 <= i < |es| :: (es + [e])[i] == es[i];
  }

  lemma StepKeepsShape(c: Cache, e: Event)
    requires Shape(c)
    ensures Shape(Step(c, e))
  {
    match e
    case Record(key, now) => RoomIsMade(c, now);
    case Ask(key, _) => PopKeepsShape(c, key);
    case Forget(key, _) => PopKeepsShape(c, key);
  }

  /** The cache never holds more than 10,000 entries. */
  lemma {:induction false} NeverTooLarge(es: seq<Event>)
    ensures Shape(Run(es))
  {
    if es != [] {
      NeverTooLarge(es[..|es| - 1]);
      StepKeepsShape(Run(es[..|es| - 1]), es[|es| - 1]);
    }
  }

  lemma {:induction false} RunFollows(es: seq<Event>, key: Key)
    requires Timely(es) && es != []
    ensures Follows(Run(es), es, key, es[|es| - 1].at)
  {
    var n := |es| - 1;
    assert es == es[..n] + [es[n]];
    NeverTooLarge(es[..n]);
    if n > 0 {
      RunFollows(es[..n], key);
      StepFollows(Run(es[..n]), es[..n], es[n], key, es[n - 1].at);
    } else {
      StepFollows(EMPTY, [], es[n], key, es[n].at);
    }
  }

  /** The cache says what the unbounded table says of every key that was not
      forced out since it was last recorded. */
  lemma {:induction false} HitIff(es: seq<Event>, key: Key, now: real)
    requires Timely(es) && Until(es, now)
    ensures Hit(Run(es), key, now) <==> Recorded(es, key, now) && key !in Run(es).evicted
  {
    if es != [] { RunFollows(es, key); }
  }

  /** So a hit means a record less than 60 seconds old and not forgotten since. */
  lemma {:induction false} HitIsRecent(es: seq<Event>, key: Key, now: real)
    requires Timely(es) && Until(es, now) && Hit(Run(es), key, now)
    ensures exists n :: 0 <= n < |es| && es[n].Record? && es[n].key == key && now - 60.0 < es[n].at <= now
                        && forall j | n < j < |es| :: !(es[j].Forget? && es[j].key == key)
  {
    HitIff(es, key, now);
    var n := LastMention(es, key).value;
    assert es[n].Record? && es[n].key == key;
  }

  // ---------- Capacity ----------

  function Recordings(es: seq<Event>): set<Key> { set i | 0 <= i < |es| && es[i].Record? :: es[i].key }

  lemma {:induction false} DistinctFit(order: seq<Key>, s: set<Key>)
    requires NoRepeats(order) && forall k | k in order :: k in s
    ensures |order| <= |s|
  {
    if order != [] {
      var last := order[|order| - 1];
      DistinctFit(order[..|order| - 1], s - {last});
    }
  }

  /** Nothing is ever forced out while fewer than 10,000 keys are recorded. */
  lemma {:induction false} NothingEvictedBelowCapacity(es: seq<Event>)
    requires |Recordings(es)| < 10000
    ensures Run(es).evicted == {} && forall k | k in Run(es).order :: k in Recordings(es)
  {
    if es != [] {
      var n := |es| - 1;
      var c := Run(es[..n]);
      assert Recordings(es[..n]) <= Recordings(es);
      FewerElements(Recordings(es[..n]), Recordings(es));
      NothingEvictedBelowCapacity(es[..n]);
      NeverTooLarge(es[..n]);
      NeverTooLarge(es);
      DistinctFit(c.order, Recordings(es[..n]));
      assert forall k | k in Run(es).table :: k in c.table || (es[n].Record? && k == es[n].key);
    }
  }

  lemma {:induction false} FewerElements(a: set<Key>, b: set<Key>)
    requires a <= b
    ensures |a| <= |b|
  {
    if a != {} {
      var k :| k in a;
      FewerElements(a - {k}, b - {k});
    }
  }

  // ---------- Who is forced out ----------

  /** When a key's entry took its place: the last record of the key that found no
      entry, or whose own making of room had just removed it, because the full
      cache had an expired entry of the key, or none expired and the key's the oldest. */
  ghost function InsertedAt(es: seq<Event>, key: Key): (n: nat)
    ensures es != [] ==> n < |es|
    decreases |es|
  {
    if es == [] then 0
    else
      var n := |es| - 1;
      if es[n].Record? && es[n].key == key && Anew(Run(es[..n]), es[n].at, key, k => InsertedAt(es[..n], k)) then n
      else InsertedAt(es[..n], key)
  }

  /** 10,000 entries, none of which has expired. */
  ghost predicate Full(c: Cache, now: real) { |c.table| >= 10000 && forall k | k in c.table :: now < c.table[k] }

  ghost predicate Oldest(c: Cache, key: Key, age: Key -> nat) {
    key in c.table && forall k | k in c.table :: age(key) <= age(k)
  }

  ghost predicate Anew(c: Cache, now: real, key: Key, age: Key -> nat) {
    key !in c.table || (|c.table| >= 10000 && c.table[key] <= now) || (Full(c, now) && Oldest(c, key, age))
  }

  ghost predicate Sorted(order: seq<Key>, age: Key -> nat) {
    forall i, j | 0 <= i < j < |order| :: age(order[i]) < age(order[j])
  }

  lemma {:induction false} SizeOf(order: seq<Key>, s: set<Key>)
    requires NoRepeats(order) && forall k :: k in order <==> k in s
    ensures |order| == |s|
  {
    if order != [] {
      var front, last := order[..|order| - 1], order[|order| - 1];
      assert order == front + [last];
      SizeOf(front, s - {last});
    }
  }

  lemma {:induction false} WithoutIsSorted(order: seq<Key>, key: Key, age: Key -> nat)
    requires Sorted(order, age)
    ensures Sorted(Without(order, key), age) && forall k | k in Without(order, key) :: k in order
  {
    if order != [] {
      var front, last := order[..|order| - 1], order[|order| - 1];
      WithoutIsSorted(front, key, age);
      forall k | k in Without(front, key) ensures age(k) < age(last) {
        var i :| 0 <= i < |front| && front[i] == k;
        assert age(order[i]) < age(order[|order| - 1]);
      }
    }
  }

  lemma {:induction false} UnexpiredIsSorted(order: seq<Key>, table: map<Key, real>, now: real, age: Key -> nat)
    requires Sorted(order, age)
    ensures Sorted(Unexpired(order, table, now), age) && forall k | k in Unexpired(order, table, now) :: k in order
  {
    if order != [] {
      var front, last := order[..|order| - 1], order[|order| - 1];
      UnexpiredIsSorted(front, table, now, age);
      forall k | k in Unexpired(front, table, now) ensures age(k) < age(last) {
        var i :| 0 <= i < |front| && front[i] == k;
        assert age(order[i]) < age(order[|order| - 1]);
      }
    }
  }

  lemma {:induction false} UnexpiredIsAll(order: seq<Key>, table: map<Key, real>, now: real)
    ensures |Unexpired(order, table, now)| <= |order|
    ensures |Unexpired(order, table, now)| == |order| <==> forall k | k in order && k in table :: now < table[k]
    ensures |Unexpired(order, table, now)| == |order| ==> Unexpired(order, table, now) == order
  {
    if order != [] {
      UnexpiredIsAll(order[..|order| - 1], table, now);
      assert order == order[..|order| - 1] + [order[|order| - 1]];
    }
  }

  /** In an order sorted by age the front is the only oldest. */
  lemma FrontIsOldest(c: Cache, age: Key -> nat, key: Key)
    requires Shape(c) && Sorted(c.order, age) && c.order != []
    ensures Oldest(c, key, age) <==> key == c.order[0]
  {
    assert c.order[0] in c.table;
    forall k | k in c.table ensures k == c.order[0] || age(c.order[0]) < age(k) {
      assert k in c.order;
    }
  }

  lemma FullHasNoExpired(c: Cache, now: real)
    requires Shape(c) && Full(c, now)
    ensures DropExpired(c, now) == c && |c.order| == 10000
  {
    SizeOf(c.order, c.table.Keys);
    UnexpiredIsAll(c.order, c.table, now);
    assert DropExpired(c, now).table == c.table;
  }

  lemma RoomOfFull(c: Cache, now: real, age: Key -> nat, key: Key)
    requires Shape(c) && Sorted(c.order, age) && Full(c, now)
    ensures var r := MakeRoom(c, now);
            (key in r.table <==> key in c.table && !Oldest(c, key, age))
            && (key in r.evicted <==> key in c.evicted || Oldest(c, key, age))
            && Sorted(r.order, age)
  {
    FullHasNoExpired(c, now);
    WithoutIsSorted(c.order, c.order[0], age);
    FrontIsOldest(c, age, key);
    assert MakeRoom(c, now) == Pop(c, c.order[0]).(evicted := c.evicted + {c.order[0]});
  }

  lemma RoomOfOthers(c: Cache, now: real, age: Key -> nat, key: Key)
    requires Shape(c) && Sorted(c.order, age) && !Full(c, now)
    ensures var r := MakeRoom(c, now);
            (key in r.table <==> key in c.table && !(|c.table| >= 10000 && c.table[key] <= now))
            && r.evicted == c.evicted && Sorted(r.order, age)
  {
    SizeOf(c.order, c.table.Keys);
    UnexpiredIsAll(c.order, c.table, now);
    UnexpiredIsSorted(c.order, c.table, now, age);
  }

  lemma RoomFacts(c: Cache, now: real, age: Key -> nat, key: Key)
    requires Shape(c) && Sorted(c.order, age)
    ensures var r := MakeRoom(c, now);
            (key !in r.table <==> Anew(c, now, key, age))
            && (key in r.evicted <==> key in c.evicted || (Full(c, now) && Oldest(c, key, age)))
            && Sorted(r.order, age)
  {
    if Full(c, now) { RoomOfFull(c, now, age, key); } else { RoomOfOthers(c, now, age, key); }
  }

  lemma StepKeepsSorted(c: Cache, e: Event, age: Key -> nat, later: Key -> nat, n: nat)
    requires Shape(c) && Sorted(c.order, age) && forall k | k in c.order :: age(k) < n
    requires forall k :: later(k) == if e.Record? && e.key == k && Anew(c, e.at, k, age) then n else age(k)
    ensures Sorted(Step(c, e).order, later)
  {
    if e.Record? {
      RoomFacts(c, e.at, age, e.key);
      RoomIsMade(c, e.at);
    } else {
      WithoutIsSorted(c.order, e.key, age);
    }
  }

  lemma {:induction false} RunIsSorted(es: seq<Event>)
    ensures Sorted(Run(es).order, k => InsertedAt(es, k))
  {
    if es != [] {
      var n := |es| - 1;
      RunIsSorted(es[..n]);
      NeverTooLarge(es[..n]);
      StepKeepsSorted(Run(es[..n]), es[n], k => InsertedAt(es[..n], k), k => InsertedAt(es, k), n);
    }
  }

  /** A key is forced out exactly when another key is recorded while the cache is
      full, with nothing expired, and the key's entry is the one that took its place
      first. Recording a key again does not move its entry to the back. */
  lemma {:induction false} ForcedOutIff(es: seq<Event>, n: nat, key: Key)
    requires n < |es|
    ensures var c := Run(es[..n]);
            key in Run(es[..n + 1]).evicted && key !in c.evicted
            <==> es[n].Record? && es[n].key != key && Full(c, es[n].at)
                 && Oldest(c, key, k => InsertedAt(es[..n], k))
  {
    assert es[..n + 1][..n] == es[..n];
    NeverTooLarge(es[..n]);
    RunIsSorted(es[..n]);
    if es[n].Record? { RoomFacts(Run(es[..n]), es[n].at, k => InsertedAt(es[..n], k), key); }
  }

  /** What a step leaves of any key's entry: a record sets it for 60 seconds; a full
      cache loses what has expired, or the one that is forced out; a look drops an
      expired entry, and forgetting drops it anyway. Nothing else changes. */
  lemma {:induction false} EntryAfterStep(es: seq<Event>, n: nat, key: Key)
    requires n < |es|
    ensures var b, a, e := Run(es[..n]).table, Run(es[..n + 1]).table, es[n];
            if e.Record? && e.key == key then key in a && a[key] == e.at + 60.0
            else
              (key in a ==> key in b && a[key] == b[key])
              && (key in b && key !in a <==>
                    key in b
                    && (|| (e.Record? && |b| >= 10000 && b[key] <= e.at)
                        || (e.Record? && Full(Run(es[..n]), e.at)
                            && Oldest(Run(es[..n]), key, k => InsertedAt(es[..n], k)))
                        || (e.Ask? && e.key == key && b[key] <= e.at)
                        || (e.Forget? && e.key == key)))
  {
    assert es[..n + 1][..n] == es[..n];
    NeverTooLarge(es[..n]);
    RunIsSorted(es[..n]);
    if es[n].Record? {
      RoomFacts(Run(es[..n]), es[n].at, k => InsertedAt(es[..n], k), key);
      RoomIsMade(Run(es[..n]), es[n].at);
    }
  }

  // ---------- The cache as it runs ----------

  class NegativeIccids {
    var order: seq<Key>
    var table: map<Key, real>
    ghost var evicted: set<Key>
    ghost var trace: seq<Event>

    ghost function Contents(): Cache
      reads this
    {
      Cache(order, table, evicted)
    }

    ghost predicate Valid()
      reads this
    {
      Contents() == Run(trace) && Shape(Contents())
    }

    constructor ()
      ensures Valid() && trace == []
    {
      order, table, evicted, trace := [], map[], {}, [];
    }

    ghost method Note(e: Event)
      requires Shape(Run(trace)) && Contents() == Step(Run(trace), e)
      modifies this`trace
      ensures Valid() && trace == old(trace) + [e]
    {
      StepKeepsShape(Run(trace), e);
      assert (trace + [e])[..|trace|] == trace;
      trace := trace + [e];
    }

    /** `pop(key, None)` */
    method PopKey(key: Key)
      modifies this`order, this`table
      ensures Contents() == Pop(old(Contents()), key)
    {
      var kept := [];
      for k := 0 to |order|
        invariant kept == Without(order[..k], key) && order == old(order) && table == old(table)
      {
        assert order[..k + 1][..k] == order[..k];
        if order[k] != key { kept := kept + [order[k]]; }
      }
      assert order[..|order|] == order;
      order, table := kept, table - {key};
    }

    method DropExpiredKeys(now: real)
      modifies this`order, this`table
      ensures Contents() == DropExpired(old(Contents()), now)
    {
      var kept := [];
      for k := 0 to |order|
        invariant kept == Unexpired(order[..k], table, now) && order == old(order) && table == old(table)
      {
        assert order[..k + 1][..k] == order[..k];
        if !(order[k] in table && table[order[k]] <= now) { kept := kept + [order[k]]; }
      }
      assert order[..|order|] == order;
      order, table := kept, map k | k in table && table[k] > now :: table[k];
    }

    method IsHit(key: Key, now: real) returns (hit: bool)
      requires Valid()
      modifies this
      ensures Valid() && trace == old(trace) + [Ask(key, now)]
      ensures hit == Hit(old(Contents()), key, now)
    {
      hit := key in table && now < table[key];
      if key in table && now >= table[key] { PopKey(key); }
      Note(Ask(key, now));
    }

    method MakeRoomAt(now: real)
      requires Shape(Contents())
      modifies this`order, this`table, this`evicted
      ensures Contents() == MakeRoom(old(Contents()), now)
    {
      if |order| >= MAX_ENTRIES {
        DropExpiredKeys(now);
        if |order| >= MAX_ENTRIES {
          evicted := evicted + {order[0]};
          PopKey(order[0]);
        }
      }
    }

    /** `cache[key] = expires_at` */
    method PutKey(key: Key, expiresAt: real)
      modifies this`order, this`table, this`evicted
      ensures Contents() == Put(old(Contents()), key, expiresAt).(evicted := old(evicted) - {key})
    {
      evicted := evicted - {key};
      order, table := if key in table then order else order + [key], table[key := expiresAt];
    }

    method RecordMiss(key: Key, now: real)
      requires Valid()
      modifies this
      ensures Valid() && trace == old(trace) + [Record(key, now)]
    {
      ghost var before := Run(trace);
      MakeRoomAt(now);
      PutKey(key, now + TTL);
      assert Contents() == Step(before, Record(key, now));
      Note(Record(key, now));
    }

    method ForgetKey(key: Key, now: real)
      requires Valid()
      modifies this
      ensures Valid() && trace == old(trace) + [Forget(key, now)]
    {
      PopKey(key);
      evicted := evicted - {key};
      Note(Forget(key, now));
    }
  }
}
