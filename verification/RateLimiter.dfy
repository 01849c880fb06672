/** The limiter in front of Tele2: one lock per key, a minimum distance between
    starts, and a backoff that grows and shrinks by one second. A call is cut at
    its suspension points, so a run is any sequence of steps of any number of
    calls. A sleep lasts at least as long as asked; nothing else is assumed of
    the clock. */
module RateLimiters {

  datatype Outcome = RateLimited | Succeeded | Otherwise

  /** Where the call that holds a key's lock has got to. */
  datatype Phase = BackingOff(wake: real) | Spacing(wake: real, rate: real) | Running

  /** Steps of the call that holds the lock: it takes the lock and reads the
      backoff, reads the last start, starts, and ends; or it is cancelled in
      one of the sleeps. */
  datatype Event =
    | Enter(key: string, at: real)
    | Space(key: string, at: real, rate: real)
    | Start(key: string, at: real)
    | Finish(key: string, at: real, outcome: Outcome)
    | Leave(key: string)

  datatype Limiter = Limiter(
    lastStarted: map<string, real>,
    backoffUntil: map<string, real>,
    backoffDelay: map<string, real>,
    holders: map<string, Phase>)

  const INITIAL := Limiter(map[], map[], map[], map[])

  // ---------- One step ----------

  function Get(m: map<string, real>, key: string): real { if key in m then m[key] else 0.0 }
  function Larger(a: real, b: real): real { if a < b then b else a }
  function Smaller(a: real, b: real): real { if a < b then a else b }

  function Interval(rate: real): real { 1.0 / Larger(rate, 0.001) }

  /** When a sleep of max(0, until - at) that begins at `at` is over. */
  function WakeAt(at: real, until: real): real { at + Larger(0.0, until - at) }

  predicate Allowed(l: Limiter, e: Event) {
    match e
    case Enter(key, _) => key !in l.holders
    case Space(key, at, _) => key in l.holders && l.holders[key].BackingOff? && at >= l.holders[key].wake
    case Start(key, at) => key in l.holders && l.holders[key].Spacing? && at >= l.holders[key].wake
    case Finish(key, _, _) => key in l.holders && l.holders[key].Running?
    case Leave(key) => key in l.holders && !l.holders[key].Running?
  }

  function Step(l: Limiter, e: Event): Limiter {
    match e
    case Enter(key, at) => l.(holders := l.holders[key := BackingOff(WakeAt(at, Get(l.backoffUntil, key)))])
    case Space(key, at, rate) =>
      l.(holders := l.holders[key := Spacing(WakeAt(at, Get(l.lastStarted, key) + Interval(rate)), rate)])
    case Start(key, at) => l.(lastStarted := l.lastStarted[key := at], holders := l.holders[key := Running])
    case Finish(key, at, outcome) => Record(l, key, at, outcome).(holders := l.holders - {key})
    case Leave(key) => l.(holders := l.holders - {key})
  }

  function Record(l: Limiter, key: string, at: real, outcome: Outcome): Limiter {
    match outcome
    case RateLimited =>
      var next := Smaller(Get(l.backoffDelay, key) + 1.0, 30.0);
      l.(backoffDelay := l.backoffDelay[key := next], backoffUntil := l.backoffUntil[key := at + next])
    case Succeeded =>
      var current := Get(l.backoffDelay, key);
      if current <= 1.0
      then l.(backoffDelay := l.backoffDelay - {key}, backoffUntil := l.backoffUntil - {key})
      else l.(backoffDelay := l.backoffDelay[key := current - 1.0])
    case Otherwise => l
  }

  // ---------- Runs ----------

  function Run(es: seq<Event>): Limiter {
    if es == [] then INITIAL else Step(Run(es[..|es| - 1]), es[|es| - 1])
  }

  predicate Legal(es: seq<Event>) {
    es != [] ==> Legal(es[..|es| - 1]) && Allowed(Run(es[..|es| - 1]), es[|es| - 1])
  }

  /** When the calls of a key started. */
  function Starts(es: seq<Event>, key: string): seq<real> {
    if es == [] then []
    else
      var e := es[|es| - 1];
      Starts(es[..|es| - 1], key) + if e.Start? && e.key == key then [e.at] else []
  }

  /** How the calls of a key ended. */
  function Outcomes(es: seq<Event>, key: string): seq<Outcome> {
    if es == [] then []
    else
      var e := es[|es| - 1];
      Outcomes(es[..|es| - 1], key) + if e.Finish? && e.key == key then [e.outcome] else []
  }

  /** Every call of the key asks for at most this many starts per second. */
  predicate AtMost(es: seq<Event>, key: string, rate: real) {
    forall i | 0 <= i < |es| && es[i].Space? && es[i].key == key :: es[i].rate <= rate
  }

  /** A step of one key leaves every other key alone. */
  lemma OtherKeys(l: Limiter, e: Event, key: string)
    requires e.key != key
    ensures var m := Step(l, e);
            (key in m.holders <==> key in l.holders) && (key in l.holders ==> m.holders[key] == l.holders[key])
            && (key in m.backoffDelay <==> key in l.backoffDelay) && (key in m.backoffUntil <==> key in l.backoffUntil)
            && Get(m.backoffDelay, key) == Get(l.backoffDelay, key)
            && Get(m.backoffUntil, key) == Get(l.backoffUntil, key)
            && Get(m.lastStarted, key) == Get(l.lastStarted, key)
  {
  }

  // ---------- Calls of one key ----------

  /** They never overlap: all that started have ended, but for the one that
      holds the lock. */
  lemma {:induction false} CallsNeverOverlap(es: seq<Event>, key: string)
    requires Legal(es)
    ensures var running := key in Run(es).holders && Run(es).holders[key].Running?;
            |Starts(es, key)| == |Outcomes(es, key)| + if running then 1 else 0
  {
    if es != [] { CallsNeverOverlap(es[..|es| - 1], key); }
  }

  lemma {:induction false} WakesLateEnough(es: seq<Event>, key: string)
    requires Legal(es)
    ensures var l := Run(es);
            key in l.holders ==>
              (!l.holders[key].Running? ==> l.holders[key].wake >= Get(l.backoffUntil, key))
              && (l.holders[key].Spacing? ==>
                    l.holders[key].wake >= Get(l.lastStarted, key) + Interval(l.holders[key].rate))
  {
    if es != [] {
      var n := |es| - 1;
      WakesLateEnough(es[..n], key);
      if es[n].key != key { OtherKeys(Run(es[..n]), es[n], key); }
    }
  }

  /** No call starts before its key's backoff deadline. */
  lemma {:induction false} StartsAfterDeadline(es: seq<Event>, key: string)
    requires Legal(es) && es != [] && es[|es| - 1].Start? && es[|es| - 1].key == key
    ensures es[|es| - 1].at >= Get(Run(es[..|es| - 1]).backoffUntil, key)
  {
    WakesLateEnough(es[..|es| - 1], key);
  }

  lemma {:induction false} LastStartIsKept(es: seq<Event>, key: string)
    requires Legal(es)
    ensures var starts := Starts(es, key);
            starts != [] ==> key in Run(es).lastStarted && Run(es).lastStarted[key] == starts[|starts| - 1]
  {
    if es != [] { LastStartIsKept(es[..|es| - 1], key); }
  }

  /** The lock of a key is held from the step that enters to the one that finishes or
      leaves, whatever becomes of the call. */
  lemma {:induction false} LockFollowsCall(es: seq<Event>, n: nat, key: string)
    requires n < |es|
    ensures key in Run(es[..n + 1]).holders <==>
            if es[n].key == key then !es[n].Finish? && !es[n].Leave? else key in Run(es[..n]).holders
  {
    assert es[..n + 1][..n] == es[..n];
  }

  /** When the last call of the key started; a key that never had one counts from
      the clock's zero. */
  function LastStart(es: seq<Event>, key: string): real {
    var starts := Starts(es, key);
    if starts == [] then 0.0 else starts[|starts| - 1]
  }

  lemma {:induction false} LastStartIsStored(es: seq<Event>, key: string)
    ensures Get(Run(es).lastStarted, key) == LastStart(es, key)
  {
    if es != [] {
      var n := |es| - 1;
      LastStartIsStored(es[..n], key);
      if es[n].key != key { OtherKeys(Run(es[..n]), es[n], key); }
    }
  }

  /** No sleep is longer than needed: a call that takes the lock waits until the
      deadline, if that is still to come, and then until the interval since the
      last start is over, if it is not yet. */
  lemma {:induction false} SleepsAreExact(es: seq<Event>, n: nat)
    requires n < |es|
    ensures es[n].Enter? ==>
              Run(es[..n + 1]).holders[es[n].key] ==
                BackingOff(Larger(es[n].at, Get(Run(es[..n]).backoffUntil, es[n].key)))
    ensures es[n].Space? && es[n].rate >= 0.001 ==>
              Run(es[..n + 1]).holders[es[n].key] ==
                Spacing(Larger(es[n].at, LastStart(es[..n], es[n].key) + 1.0 / es[n].rate), es[n].rate)
  {
    assert es[..n + 1][..n] == es[..n];
    LastStartIsStored(es[..n], es[n].key);
  }

  /** A success shortens the delay and leaves the deadline, until the delay is gone. */
  lemma {:induction false} SuccessKeepsDeadline(es: seq<Event>, n: nat)
    requires n < |es| && Legal(es[..n]) && es[n].Finish? && es[n].outcome.Succeeded?
    requires Delay(Outcomes(es[..n], es[n].key)) > 1
    ensures Get(Run(es[..n + 1]).backoffUntil, es[n].key) == Get(Run(es[..n]).backoffUntil, es[n].key)
  {
    assert es[..n + 1][..n] == es[..n];
    BackoffIsCounter(es[..n], es[n].key);
  }

  lemma {:induction false} HolderKeepsRate(es: seq<Event>, key: string, rate: real)
    requires Legal(es) && AtMost(es, key, rate)
    ensures key in Run(es).holders && Run(es).holders[key].Spacing? ==> Run(es).holders[key].rate <= rate
  {
    if es != [] { HolderKeepsRate(es[..|es| - 1], key, rate); }
  }

  lemma Reciprocal(a: real, b: real)
    requires 0.0 < a <= b
    ensures 0.0 < 1.0 / b <= 1.0 / a
  {
    assert 1.0 / b * a <= 1.0 / b * b == 1.0 == 1.0 / a * a;
  }

  /** One start and the next. */
  lemma {:induction false} NeighboursAreSpaced(es: seq<Event>, key: string, rate: real, i: nat)
    requires Legal(es) && rate >= 0.001 && AtMost(es, key, rate) && i + 1 < |Starts(es, key)|
    ensures Starts(es, key)[i + 1] >= Starts(es, key)[i] + 1.0 / rate
  {
    var n := |es| - 1;
    if i + 1 < |Starts(es[..n], key)| {
      NeighboursAreSpaced(es[..n], key, rate, i);
    } else {
      LastStartIsKept(es[..n], key);
      WakesLateEnough(es[..n], key);
      HolderKeepsRate(es[..n], key, rate);
      Reciprocal(Larger(Run(es[..n]).holders[key].rate, 0.001), rate);
    }
  }

  /** Starts i and j of a key are (j - i) / rate apart. */
  lemma {:induction false} StartsAreSpaced(es: seq<Event>, key: string, rate: real, i: nat, j: nat)
    requires Legal(es) && rate >= 0.001 && AtMost(es, key, rate) && i <= j < |Starts(es, key)|
    ensures Starts(es, key)[j] - Starts(es, key)[i] >= (j - i) as real / rate
    decreases j - i
  {
    if i < j {
      StartsAreSpaced(es, key, rate, i, j - 1);
      NeighboursAreSpaced(es, key, rate, j - 1);
      assert (j - i) as real / rate == (j - 1 - i) as real / rate + 1.0 / rate;
    }
  }

  // ---------- The rate ----------

  /** How many of the times lie in a window. */
  function InWindow(times: seq<real>, from: real, length: real): nat {
    if times == [] then 0
    else
      var t := times[|times| - 1];
      InWindow(times[..|times| - 1], from, length) + if from <= t <= from + length then 1 else 0
  }

  lemma {:induction false} InWindowIsSize(times: seq<real>, from: real, length: real)
    ensures InWindow(times, from, length) == |set i | 0 <= i < |times| && from <= times[i] <= from + length|
  {
    if times != [] {
      var n := |times| - 1;
      var init := times[..n];
      InWindowIsSize(init, from, length);
      var front := set i | 0 <= i < |init| && from <= init[i] <= from + length;
      var all := set i | 0 <= i < |times| && from <= times[i] <= from + length;
      assert all == if from <= times[n] <= from + length then front + {n} else front;
      assert n !in front;
    }
  }

  /** The outermost times in the window. */
  lemma {:induction false} WindowSpan(times: seq<real>, from: real, length: real) returns (i: nat, j: nat)
    requires InWindow(times, from, length) > 0
    ensures i <= j < |times| && InWindow(times, from, length) <= j - i + 1
    ensures from <= times[i] <= from + length && from <= times[j] <= from + length
  {
    var n := |times| - 1;
    if from <= times[n] <= from + length {
      i, j := n, n;
      if InWindow(times[..n], from, length) > 0 {
        i, j := WindowSpan(times[..n], from, length);
        j := n;
      }
    } else {
      i, j := WindowSpan(times[..n], from, length);
    }
  }

  lemma WholeSteps(steps: nat, length: real, rate: real)
    requires rate > 0.0 && steps as real / rate <= length
    ensures steps <= (length * rate).Floor
  {
    assert steps as real / rate * rate == steps as real;
    assert (length - steps as real / rate) * rate >= 0.0;
    assert steps as real <= length * rate;
  }

  /** The rate bound: a window of any length, placed anywhere, holds at most
      floor(length * rate) + 1 starts of a key. */
  lemma {:induction false} WindowHoldsAtMost(es: seq<Event>, key: string, rate: real, from: real, length: real)
    requires Legal(es) && rate >= 0.001 && AtMost(es, key, rate) && length >= 0.0
    ensures var starts := Starts(es, key);
            |set i | 0 <= i < |starts| && from <= starts[i] <= from + length| <= (length * rate).Floor + 1
  {
    InWindowIsSize(Starts(es, key), from, length);
    if InWindow(Starts(es, key), from, length) > 0 {
      var i, j := WindowSpan(Starts(es, key), from, length);
      StartsAreSpaced(es, key, rate, i, j);
      WholeSteps(j - i, length, rate);
    } else {
      assert length * rate >= 0.0;
    }
  }

  // ---------- Backoff ----------

  function NextDelay(delay: nat, outcome: Outcome): nat {
    match outcome
    case RateLimited => if delay < 30 then delay + 1 else 30
    case Succeeded => if delay == 0 then 0 else delay - 1
    case Otherwise => delay
  }

  /** The delay in whole seconds, a counter between 0 and 30. */
  function Delay(outcomes: seq<Outcome>): nat {
    if outcomes == [] then 0 else NextDelay(Delay(outcomes[..|outcomes| - 1]), outcomes[|outcomes| - 1])
  }

  /** A key's backoff is this long: it is in both maps while that is positive,
      and in neither when it is zero. */
  predicate AtDelay(l: Limiter, key: string, delay: nat) {
    && (key in l.backoffDelay <==> delay > 0) && (key in l.backoffUntil <==> delay > 0)
    && Get(l.backoffDelay, key) == delay as real
  }

  function DelayAfter(delay: nat, e: Event, key: string): nat {
    if e.Finish? && e.key == key then NextDelay(delay, e.outcome) else delay
  }

  lemma StepMovesDelay(l: Limiter, e: Event, key: string, delay: nat)
    requires AtDelay(l, key, delay) && delay <= 30
    ensures AtDelay(Step(l, e), key, DelayAfter(delay, e, key)) && DelayAfter(delay, e, key) <= 30
  {
    if e.key != key { OtherKeys(l, e, key); }
  }

  lemma {:induction false} DelayOfPrefix(es: seq<Event>, key: string)
    requires es != []
    ensures var n := |es| - 1;
            Delay(Outcomes(es, key)) == DelayAfter(Delay(Outcomes(es[..n], key)), es[n], key)
  {
    var n := |es| - 1;
    var before := Outcomes(es[..n], key);
    if es[n].Finish? && es[n].key == key {
      DelaySnoc(before, es[n].outcome);
    } else {
      assert before + [] == before;
    }
  }

  /** The two maps follow the counter. */
  lemma {:induction false} BackoffIsCounter(es: seq<Event>, key: string)
    requires Legal(es)
    ensures AtDelay(Run(es), key, Delay(Outcomes(es, key))) && Delay(Outcomes(es, key)) <= 30
  {
    if es != [] {
      var n := |es| - 1;
      BackoffIsCounter(es[..n], key);
      DelayOfPrefix(es, key);
      StepMovesDelay(Run(es[..n]), es[n], key, Delay(Outcomes(es[..n], key)));
    }
  }

  lemma {:induction false} DelaySnoc(outcomes: seq<Outcome>, last: Outcome)
    ensures Delay(outcomes + [last]) == NextDelay(Delay(outcomes), last)
  {
    assert (outcomes + [last])[..|outcomes|] == outcomes;
  }

  function Repeat(outcome: Outcome, k: nat): seq<Outcome> { seq(k, _ => outcome) }

  lemma {:induction false} RepeatedOutcomes(outcomes: seq<Outcome>, k: nat)
    ensures Delay(outcomes + Repeat(RateLimited, k)) == if Delay(outcomes) + k < 30 then Delay(outcomes) + k else 30
    ensures Delay(outcomes + Repeat(Succeeded, k)) == if Delay(outcomes) > k then Delay(outcomes) - k else 0
  {
    DelayAtMost30(outcomes);
    if k == 0 {
      assert outcomes + Repeat(RateLimited, 0) == outcomes == outcomes + Repeat(Succeeded, 0);
    } else {
      RepeatedOutcomes(outcomes, k - 1);
      assert outcomes + Repeat(RateLimited, k) == outcomes + Repeat(RateLimited, k - 1) + [RateLimited];
      assert outcomes + Repeat(Succeeded, k) == outcomes + Repeat(Succeeded, k - 1) + [Succeeded];
      DelaySnoc(outcomes + Repeat(RateLimited, k - 1), RateLimited);
      DelaySnoc(outcomes + Repeat(Succeeded, k - 1), Succeeded);
    }
  }

  lemma {:induction false} DelayAtMost30(outcomes: seq<Outcome>)
    ensures Delay(outcomes) <= 30
  {
    if outcomes != [] { DelayAtMost30(outcomes[..|outcomes| - 1]); }
  }

  /** k rate limits in a row, from clean, come to min(k, 30) seconds; thirty
      successes in a row clear any backoff. */
  lemma {:induction false} BackoffUpAndDown(es: seq<Event>, key: string, before: seq<Outcome>, k: nat)
    requires Legal(es)
    ensures Delay(before) == 0 && Outcomes(es, key) == before + Repeat(RateLimited, k) ==>
              Get(Run(es).backoffDelay, key) == if k < 30 then k as real else 30.0
    ensures k >= 30 && Outcomes(es, key) == before + Repeat(Succeeded, k) ==>
              key !in Run(es).backoffDelay && key !in Run(es).backoffUntil
  {
    BackoffIsCounter(es, key);
    RepeatedOutcomes(before, k);
    DelayAtMost30(before);
  }

  /** The call ends with an answer that changes its key's backoff. */
  predicate Changes(e: Event, key: string) { e.Finish? && e.key == key && !e.outcome.Otherwise? }

  lemma StepKeepsDeadline(l: Limiter, e: Event, key: string)
    requires !Changes(e, key)
    ensures Get(Step(l, e).backoffUntil, key) == Get(l.backoffUntil, key)
  {
  }

  lemma {:induction false} DeadlineIsKept(es: seq<Event>, key: string, k: nat, m: nat)
    requires k <= m <= |es| && forall j | k <= j < m :: !Changes(es[j], key)
    ensures Get(Run(es[..m]).backoffUntil, key) == Get(Run(es[..k]).backoffUntil, key)
  {
    if m > k {
      DeadlineIsKept(es, key, k, m - 1);
      assert es[..m][..m - 1] == es[..m - 1];
      StepKeepsDeadline(Run(es[..m - 1]), es[m - 1], key);
    }
  }

  lemma RateLimitSetsDeadline(es: seq<Event>, k: nat)
    requires k < |es| && es[k].Finish? && es[k].outcome.RateLimited?
    ensures var l := Run(es[..k + 1]);
            Get(l.backoffUntil, es[k].key) == es[k].at + Get(l.backoffDelay, es[k].key)
  {
    assert es[..k + 1][..k] == es[..k];
  }

  lemma {:induction false} PrefixIsLegal(es: seq<Event>, m: nat)
    requires Legal(es) && m <= |es|
    ensures Legal(es[..m])
  {
    if m == |es| {
      assert es[..m] == es;
    } else {
      PrefixIsLegal(es[..|es| - 1], m);
      assert es[..|es| - 1][..m] == es[..m];
    }
  }

  lemma {:induction false} StartInRun(es: seq<Event>, m: nat)
    requires Legal(es) && m < |es| && es[m].Start?
    ensures es[m].at >= Get(Run(es[..m]).backoffUntil, es[m].key)
  {
    PrefixIsLegal(es, m + 1);
    assert es[..m + 1][..m] == es[..m];
    StartsAfterDeadline(es[..m + 1], es[m].key);
  }

  lemma {:induction false} DelayInRun(es: seq<Event>, m: nat, key: string)
    requires Legal(es) && m <= |es|
    ensures Get(Run(es[..m]).backoffDelay, key) == Delay(Outcomes(es[..m], key)) as real
  {
    PrefixIsLegal(es, m);
    BackoffIsCounter(es[..m], key);
  }

  /** After a rate limit, the next start of the key waits out the delay. */
  lemma {:induction false} RateLimitDelaysNextStart(es: seq<Event>, k: nat, m: nat)
    requires Legal(es) && k < m < |es| && es[k].Finish? && es[k].outcome.RateLimited?
    requires es[m].Start? && es[m].key == es[k].key
    requires forall j | k < j < m :: !Changes(es[j], es[k].key)
    ensures es[m].at >= es[k].at + Delay(Outcomes(es[..k + 1], es[k].key)) as real
  {
    RateLimitSetsDeadline(es, k);
    DeadlineIsKept(es, es[k].key, k + 1, m);
    StartInRun(es, m);
    DelayInRun(es, k + 1, es[k].key);
  }

  // ---------- The configured rate ----------

  /** The `max_tps` credential: missing, not a number, or a number. */
  datatype Raw = Missing | NotANumber | Number(value: real)

  /** The rate is between 1 and 1000 whatever is configured, and is the
      configured number when that is in range; a number out of range is moved to
      the nearer end, and without a readable one the rate is 1. */
  function MaxTps(raw: Raw, scoped: Raw): (rate: real)
    ensures 1.0 <= rate <= 1000.0
    ensures forall v | 1.0 <= v <= 1000.0 :: raw == Number(v) || (raw.Missing? && scoped == Number(v)) ==> rate == v
    ensures forall v :: raw == Number(v) || (raw.Missing? && scoped == Number(v)) ==>
                          (v < 1.0 ==> rate == 1.0) && (v > 1000.0 ==> rate == 1000.0)
    ensures raw.NotANumber? || (raw.Missing? && !scoped.Number?) ==> rate == 1.0
  {
    match if raw.Missing? then scoped else raw
    case Number(v) => Smaller(Larger(v, 1.0), 1000.0)
    case _ => 1.0
  }

  /** At the configured rate a key never starts more than floor(length *
      MaxTps) + 1 calls in a window: the lower bound of 0.001 plays no part. */
  lemma {:induction false} ConfiguredRateIsKept(es: seq<Event>, key: string, raw: Raw, scoped: Raw, from: real,
                                                length: real)
    requires Legal(es) && AtMost(es, key, MaxTps(raw, scoped)) && length >= 0.0
    ensures var starts := Starts(es, key);
            |set i | 0 <= i < |starts| && from <= starts[i] <= from + length|
            <= (length * MaxTps(raw, scoped)).Floor + 1
  {
    WindowHoldsAtMost(es, key, MaxTps(raw, scoped), from, length);
  }

  // ---------- The object ----------

  lemma {:induction false} OneMoreStep(es: seq<Event>, e: Event)
    requires Legal(es) && Allowed(Run(es), e)
    ensures Legal(es + [e]) && Run(es + [e]) == Step(Run(es), e)
  {
    assert (es + [e])[..|es|] == es;
  }

  class RateLimiter {
    var lastStarted: map<string, real>
    var backoffUntil: map<string, real>
    var backoffDelay: map<string, real>
    ghost var holders: map<string, Phase>
    ghost var trace: seq<Event>

    ghost predicate Valid()
      reads this
    {
      Legal(trace) && Limiter(lastStarted, backoffUntil, backoffDelay, holders) == Run(trace)
    }

    constructor ()
      ensures Valid() && trace == []
    {
      lastStarted, backoffUntil, backoffDelay, holders := map[], map[], map[], map[];
      trace := [];
    }

    ghost method Note(e: Event)
      requires Legal(trace) && Allowed(Run(trace), e)
      requires Limiter(lastStarted, backoffUntil, backoffDelay, Step(Run(trace), e).holders) == Step(Run(trace), e)
      modifies this`holders, this`trace
      ensures Valid() && trace == old(trace) + [e]
    {
      OneMoreStep(trace, e);
      holders := Step(Run(trace), e).holders;
      trace := trace + [e];
    }

    /** The lock is taken: how long to sleep for the backoff. */
    method WaitForBackoff(key: string, now: real) returns (sleep: real)
      requires Valid() && key !in holders
      modifies this
      ensures Valid() && trace == old(trace) + [Enter(key, now)]
      ensures sleep >= 0.0 && key in holders && holders[key] == BackingOff(now + sleep)
    {
      sleep := Larger(0.0, Get(backoffUntil, key) - now);
      Note(Enter(key, now));
    }

    /** How long to sleep for the distance to the last start. */
    method WaitForTps(key: string, maxTps: real, now: real) returns (sleep: real)
      requires Valid() && key in holders && holders[key].BackingOff? && now >= holders[key].wake
      modifies this
      ensures Valid() && trace == old(trace) + [Space(key, now, maxTps)]
      ensures sleep >= 0.0 && key in holders && holders[key] == Spacing(now + sleep, maxTps)
    {
      var interval := 1.0 / Larger(maxTps, 0.001);
      sleep := Larger(0.0, (Get(lastStarted, key) + interval) - now);
      Note(Space(key, now, maxTps));
    }

    method StartCall(key: string, now: real)
      requires Valid() && key in holders && holders[key].Spacing? && now >= holders[key].wake
      modifies this
      ensures Valid() && trace == old(trace) + [Start(key, now)]
    {
      lastStarted := lastStarted[key := now];
      Note(Start(key, now));
    }

    method RecordRateLimited(key: string, now: real)
      requires Valid() && key in holders && holders[key].Running?
      modifies this
      ensures Valid() && trace == old(trace) + [Finish(key, now, RateLimited)]
    {
      var nextDelay := Smaller(Get(backoffDelay, key) + 1.0, 30.0);
      backoffDelay := backoffDelay[key := nextDelay];
      backoffUntil := backoffUntil[key := now + nextDelay];
      Note(Finish(key, now, RateLimited));
    }

    method RecordSuccess(key: string, now: real)
      requires Valid() && key in holders && holders[key].Running?
      modifies this
      ensures Valid() && trace == old(trace) + [Finish(key, now, Succeeded)]
    {
      var current := Get(backoffDelay, key);
      if current <= 1.0 {
        backoffDelay := backoffDelay - {key};
        backoffUntil := backoffUntil - {key};
      } else {
        backoffDelay := backoffDelay[key := current - 1.0];
      }
      Note(Finish(key, now, Succeeded));
    }
  }
}
