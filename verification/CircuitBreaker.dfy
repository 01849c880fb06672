/** The circuit breaker around a provider's calls. Calls overlap: each one begins
    and ends on its own, and the lock makes each beginning and each ending one
    step, so a run is any sequence of such steps at nondecreasing times. */
module CircuitBreakers {

  datatype State = CLOSED | OPEN | HALF_OPEN

  /** A call begins, or a call ends: with an answer (an error of the client's
      making counts as one), with a failure, or cancelled, which records nothing. */
  datatype Event =
    | Begin(at: real)
    | Succeed(at: real)
    | Fail(at: real)
    | Cancel(at: real)

  datatype Config = Config(threshold: nat, window: real, openFor: real)

  predicate ValidConfig(c: Config) { c.threshold >= 1 && c.window >= 0.0 && c.openFor >= 0.0 }

  /** The breaker between two steps. */
  datatype Breaker = Breaker(state: State, failures: seq<real>, openedAt: real, failureCount: nat, successCount: nat)

  const INITIAL := Breaker(CLOSED, [], 0.0, 0, 0)

  // ---------- One step ----------

  function DropOld(failures: seq<real>, cutoff: real): seq<real> {
    if failures != [] && failures[0] < cutoff then DropOld(failures[1..], cutoff) else failures
  }

  function RemainingOpen(c: Config, b: Breaker, now: real): real { c.openFor - (now - b.openedAt) }

  predicate Rejects(c: Config, b: Breaker, now: real) {
    b.state.OPEN? && RemainingOpen(c, b, now) > 0.0
  }

  function Ceil(x: real): int { -((-x).Floor) }

  function Step(c: Config, b: Breaker, e: Event): Breaker {
    match e
    case Begin(now) =>
      if b.state.OPEN? && !Rejects(c, b, now) then b.(state := HALF_OPEN) else b
    case Succeed(_) =>
      var counted := b.(successCount := b.successCount + 1);
      if b.state.HALF_OPEN? then counted.(state := CLOSED, failures := []) else counted
    case Fail(now) =>
      var kept := DropOld(b.failures + [now], now - c.window);
      var counted := b.(failureCount := b.failureCount + 1);
      if b.state.HALF_OPEN? || |kept| >= c.threshold
      then counted.(state := OPEN, failures := [], openedAt := now)
      else counted.(failures := kept)
    case Cancel(_) => b
  }

  // ---------- Runs ----------

  function Run(c: Config, es: seq<Event>): Breaker {
    if es == [] then INITIAL else Step(c, Run(c, es[..|es| - 1]), es[|es| - 1])
  }

  predicate Timely(es: seq<Event>) {
    && (forall i | 0 <= i < |es| :: es[i].at >= 0.0)
    && forall i, j | 0 <= i <= j < |es| :: es[i].at <= es[j].at
  }

  /** The step forgets every failure: it opens the breaker or closes it. */
  predicate Clears(before: Breaker, after: Breaker, e: Event) {
    || (e.Fail? && after.state.OPEN? && after.failures == [])
    || (e.Succeed? && before.state.HALF_OPEN?)
  }

  /** The failure times since the last step that forgot them, oldest first. */
  function SinceClear(c: Config, es: seq<Event>): seq<real> {
    if es == [] then []
    else
      var n := |es| - 1;
      if Clears(Run(c, es[..n]), Run(c, es), es[n]) then []
      else SinceClear(c, es[..n]) + if es[n].Fail? then [es[n].at] else []
  }

  /** Those of the times that lie within the window of the newest one. */
  function Within(times: seq<real>, cutoff: real): seq<real> {
    if times == [] then []
    else (if times[0] >= cutoff then [times[0]] else []) + Within(times[1..], cutoff)
  }

  function InWindow(c: Config, times: seq<real>): seq<real> {
    if times == [] then [] else Within(times, times[|times| - 1] - c.window)
  }

  predicate Ascending(times: seq<real>) { forall i, j | 0 <= i <= j < |times| :: times[i] <= times[j] }

  // ---------- The deque is the window ----------

  lemma {:induction false} DropOldIsWithin(times: seq<real>, cutoff: real)
    requires Ascending(times)
    ensures DropOld(times, cutoff) == Within(times, cutoff)
  {
    if times != [] {
      if times[0] < cutoff {
        DropOldIsWithin(times[1..], cutoff);
      } else {
        WithinAll(times, cutoff);
      }
    }
  }

  lemma {:induction false} WithinAll(times: seq<real>, cutoff: real)
    requires forall i | 0 <= i < |times| :: times[i] >= cutoff
    ensures Within(times, cutoff) == times
  {
    if times != [] { WithinAll(times[1..], cutoff); }
  }

  lemma {:induction false} WithinConcat(a: seq<real>, b: seq<real>, cutoff: real)
    ensures Within(a + b, cutoff) == Within(a, cutoff) + Within(b, cutoff)
  {
    if a == [] {
      assert a + b == b;
    } else {
      WithinConcat(a[1..], b, cutoff);
      assert (a + b)[1..] == a[1..] + b;
      Associative(if a[0] >= cutoff then [a[0]] else [], Within(a[1..], cutoff), Within(b, cutoff));
    }
  }

  lemma Associative(a: seq<real>, b: seq<real>, c: seq<real>)
    ensures a + (b + c) == a + b + c
  {
  }

  /** A later cutoff makes an earlier one redundant. */
  lemma {:induction false} WithinTwice(times: seq<real>, early: real, late: real)
    requires early <= late
    ensures Within(Within(times, early), late) == Within(times, late)
  {
    if times != [] {
      WithinTwice(times[1..], early, late);
      WithinConcat(if times[0] >= early then [times[0]] else [], Within(times[1..], early), late);
    }
  }

  lemma {:induction false} WithinSelects(times: seq<real>, cutoff: real)
    ensures forall t | t in Within(times, cutoff) :: t in times && t >= cutoff
  {
    if times != [] {
      WithinSelects(times[1..], cutoff);
      assert times == [times[0]] + times[1..];
    }
  }

  lemma {:induction false} WithinAscending(times: seq<real>, cutoff: real)
    requires Ascending(times)
    ensures Ascending(Within(times, cutoff))
  {
    if times != [] {
      var rest := Within(times[1..], cutoff);
      WithinAscending(times[1..], cutoff);
      WithinSelects(times[1..], cutoff);
      forall i | 0 <= i < |rest| ensures times[0] <= rest[i] {
        assert rest[i] in rest && rest[i] in times[1..];
        var j :| 0 <= j < |times[1..]| && times[1..][j] == rest[i];
        assert times[j + 1] == rest[i];
      }
    }
  }

  lemma {:induction false} SinceClearFacts(c: Config, es: seq<Event>, now: real)
    requires Timely(es) && forall i | 0 <= i < |es| :: es[i].at <= now
    ensures Ascending(SinceClear(c, es) + [now])
  {
    if es != [] {
      var n := |es| - 1;
      SinceClearFacts(c, es[..n], es[n].at);
      LaterStillAscends(SinceClear(c, es[..n]), es[n].at, now);
      assert SinceClear(c, es[..n]) + [] == SinceClear(c, es[..n]);
    }
  }

  lemma LaterStillAscends(times: seq<real>, now: real, later: real)
    requires Ascending(times + [now]) && now <= later
    ensures Ascending(times + [later]) && Ascending(times + [now] + [later])
  {
    var a, b := times + [now], times + [later];
    forall i, j | 0 <= i <= j < |b| ensures b[i] <= b[j] { assert a[i] <= a[j]; }
    forall i | 0 <= i < |a| ensures a[i] <= later { assert a[i] <= a[|times|]; }
  }

  lemma SnocAscending(times: seq<real>, more: seq<real>, now: real)
    requires Ascending(times + [now]) && Ascending(more) && forall t | t in more :: t in times
    ensures Ascending(times) && Ascending(more + [now])
  {
    assert forall i | 0 <= i < |times| :: times[i] == (times + [now])[i];
    forall i | 0 <= i < |more| ensures more[i] <= now {
      assert more[i] in more && more[i] in times;
      var j :| 0 <= j < |times| && times[j] == more[i];
      assert (times + [now])[j] <= (times + [now])[|times|];
    }
  }

  /** What is left of the deque when a failure is recorded. */
  lemma {:induction false} KeptIsWindow(c: Config, times: seq<real>, now: real)
    requires ValidConfig(c) && Ascending(times + [now])
    ensures var kept := DropOld(InWindow(c, times) + [now], now - c.window);
            kept == InWindow(c, times + [now]) && kept != [] && Ascending(kept)
  {
    var cutoff, deque := now - c.window, InWindow(c, times);
    if times != [] {
      var early := times[|times| - 1] - c.window;
      assert (times + [now])[|times| - 1] <= (times + [now])[|times|];
      SnocAscending(times, [], now);
      WithinAscending(times, early);
      WithinSelects(times, early);
      WithinTwice(times, early, cutoff);
    }
    SnocAscending(times, deque, now);
    DropOldIsWithin(deque + [now], cutoff);
    OneMoreTime(times, deque, now, cutoff);
    WithinAscending(times + [now], cutoff);
  }

  lemma {:induction false} OneMoreTime(times: seq<real>, deque: seq<real>, now: real, cutoff: real)
    requires Within(deque, cutoff) == Within(times, cutoff)
    ensures Within(deque + [now], cutoff) == Within(times + [now], cutoff)
    ensures now >= cutoff ==> Within(times + [now], cutoff) != []
  {
    WithinConcat(deque, [now], cutoff);
    WithinConcat(times, [now], cutoff);
  }

  /** The deque, after any interleaving of calls, holds exactly the failures
      since the last clear that lie within the window of the newest of them; it
      is sorted and shorter than the threshold. */
  lemma {:induction false} DequeIsWindow(c: Config, es: seq<Event>)
    requires ValidConfig(c) && Timely(es)
    ensures var b := Run(c, es);
            b.failures == InWindow(c, SinceClear(c, es)) && Ascending(b.failures) && |b.failures| < c.threshold
  {
    if es != [] {
      var n := |es| - 1;
      DequeIsWindow(c, es[..n]);
      SinceClearFacts(c, es[..n], es[n].at);
      KeptIsWindow(c, SinceClear(c, es[..n]), es[n].at);
      assert SinceClear(c, es[..n]) + [] == SinceClear(c, es[..n]);
    }
  }

  /** A failure while CLOSED opens the breaker exactly when, counting itself, at
      least threshold-many failures since the last clear lie in the window that
      ends with it. */
  lemma FailureOpensIff(c: Config, es: seq<Event>)
    requires ValidConfig(c) && Timely(es) && es != [] && es[|es| - 1].Fail?
    requires Run(c, es[..|es| - 1]).state.CLOSED?
    ensures var n := |es| - 1;
            Run(c, es).state.OPEN? <==> |InWindow(c, SinceClear(c, es[..n]) + [es[n].at])| >= c.threshold
    ensures Run(c, es).state != HALF_OPEN
  {
    var n := |es| - 1;
    DequeIsWindow(c, es[..n]);
    SinceClearFacts(c, es[..n], es[n].at);
    KeptIsWindow(c, SinceClear(c, es[..n]), es[n].at);
  }

  // ---------- While it is open ----------

  /** Step k opened the breaker (or opened it again). */
  predicate Opens(c: Config, es: seq<Event>, k: nat) {
    && k < |es| && es[k].Fail?
    && var b := Run(c, es[..k + 1]); b.state.OPEN? && b.failures == [] && b.openedAt == es[k].at
  }

  /** The call that begins at step m goes through to the provider. */
  predicate Forwarded(c: Config, es: seq<Event>, m: nat) {
    m < |es| && es[m].Begin? && !Rejects(c, Run(c, es[..m]), es[m].at)
  }

  lemma {:induction false} OpenedInThePast(c: Config, es: seq<Event>, now: real)
    requires Timely(es) && now >= 0.0 && forall i | 0 <= i < |es| :: es[i].at <= now
    ensures 0.0 <= Run(c, es).openedAt <= now
  {
    if es != [] { OpenedInThePast(c, es[..|es| - 1], es[|es| - 1].at); }
  }

  lemma {:induction false} StaysOpen(c: Config, es: seq<Event>, k: nat, m: nat)
    requires Timely(es) && Opens(c, es, k) && k < m <= |es|
    requires forall j | k < j < m :: es[j].at < es[k].at + c.openFor
    ensures Run(c, es[..m]).state.OPEN? && Run(c, es[..m]).openedAt >= es[k].at
  {
    if m > k + 1 {
      StaysOpen(c, es, k, m - 1);
      assert es[..m][..m - 1] == es[..m - 1];
      assert es[k].at <= es[m - 1].at;
    }
  }

  /** After an opening at time o no call is forwarded before o + open_duration,
      whatever calls begin or end in the meantime. */
  lemma NothingForwardedWhileOpen(c: Config, es: seq<Event>, k: nat, m: nat)
    requires Timely(es) && Opens(c, es, k) && k < m < |es|
    requires es[m].at < es[k].at + c.openFor
    ensures !Forwarded(c, es, m)
  {
    forall j | k < j < m ensures es[j].at < es[k].at + c.openFor { assert es[j].at <= es[m].at; }
    StaysOpen(c, es, k, m);
  }

  // ---------- What each step does ----------

  /** A failed probe opens the breaker again, from its own time on. */
  lemma {:induction false} FailedProbeReopens(c: Config, es: seq<Event>, n: nat)
    requires n < |es| && es[n].Fail? && Run(c, es[..n]).state.HALF_OPEN?
    ensures Opens(c, es, n)
    ensures Timely(es) ==> forall m | n < m < |es| && es[m].at < es[n].at + c.openFor :: !Forwarded(c, es, m)
  {
    assert es[..n + 1][..n] == es[..n];
    if Timely(es) {
      forall m | n < m < |es| && es[m].at < es[n].at + c.openFor ensures !Forwarded(c, es, m) {
        NothingForwardedWhileOpen(c, es, n, m);
      }
    }
  }

  /** A probe that is answered closes it, with no failure left to count. */
  lemma {:induction false} AnsweredProbeCloses(c: Config, es: seq<Event>, n: nat)
    requires n < |es| && es[n].Succeed? && Run(c, es[..n]).state.HALF_OPEN?
    ensures var b := Run(c, es[..n + 1]); b.state.CLOSED? && b.failures == [] && SinceClear(c, es[..n + 1]) == []
  {
    assert es[..n + 1][..n] == es[..n];
  }

  /** A late failure of a call in flight keeps the breaker open for longer exactly
      if threshold-many of them lie in the window; the breaker stays OPEN. */
  lemma {:induction false} FailureWhileOpenIff(c: Config, es: seq<Event>, n: nat)
    requires ValidConfig(c) && Timely(es) && n < |es| && es[n].Fail? && Run(c, es[..n]).state.OPEN?
    ensures Opens(c, es, n) <==> |InWindow(c, SinceClear(c, es[..n]) + [es[n].at])| >= c.threshold
    ensures Run(c, es[..n + 1]).state.OPEN?
    ensures !Opens(c, es, n) ==> Run(c, es[..n + 1]).openedAt == Run(c, es[..n]).openedAt
  {
    assert es[..n + 1][..n] == es[..n];
    DequeIsWindow(c, es[..n]);
    SinceClearFacts(c, es[..n], es[n].at);
    KeptIsWindow(c, SinceClear(c, es[..n]), es[n].at);
  }

  /** Nothing else moves the breaker, but for the call that begins when it has been
      open for its time. */
  lemma {:induction false} OtherStepsKeepState(c: Config, es: seq<Event>, n: nat)
    requires n < |es| && !es[n].Fail? && !(es[n].Succeed? && Run(c, es[..n]).state.HALF_OPEN?)
    ensures var b, a := Run(c, es[..n]), Run(c, es[..n + 1]);
            a.failures == b.failures && a.openedAt == b.openedAt
            && a.state == if es[n].Begin? && b.state.OPEN? && es[n].at - b.openedAt >= c.openFor then HALF_OPEN
                          else b.state
  {
    assert es[..n + 1][..n] == es[..n];
  }

  function RetryAfter(c: Config, b: Breaker, now: real): int { Ceil(RemainingOpen(c, b, now)) }

  lemma CeilFacts(x: real, y: real)
    requires 0.0 < x <= y
    ensures 1 <= Ceil(x) <= Ceil(y) && x <= Ceil(x) as real < x + 1.0
  {
  }

  /** A rejected caller is told to wait for what is left of the open duration,
      rounded up: at least one second, and at most the whole of it. */
  lemma {:induction false} RetryAfterBounds(c: Config, es: seq<Event>, m: nat)
    requires Timely(es) && m < |es| && es[m].Begin? && !Forwarded(c, es, m)
    ensures 1 <= RetryAfter(c, Run(c, es[..m]), es[m].at) <= Ceil(c.openFor)
    ensures var opensAt := Run(c, es[..m]).openedAt + c.openFor;
            var delay := RetryAfter(c, Run(c, es[..m]), es[m].at) as real;
            delay - 1.0 < opensAt - es[m].at <= delay
  {
    OpenedInThePast(c, es[..m], es[m].at);
    CeilFacts(RemainingOpen(c, Run(c, es[..m]), es[m].at), c.openFor);
  }

  lemma {:induction false} OpenedAtIsKept(c: Config, es: seq<Event>, m: nat, n: nat)
    requires m <= n <= |es| && forall j | m <= j < n :: !Opens(c, es, j)
    ensures Run(c, es[..n]).openedAt == Run(c, es[..m]).openedAt
  {
    if n > m {
      OpenedAtIsKept(c, es, m, n - 1);
      assert es[..n][..n - 1] == es[..n - 1];
      assert !Opens(c, es, n - 1);
    }
  }

  /** Waiting that long is enough: a later call is forwarded, unless a failure
      opened the breaker again in the meantime. */
  lemma {:induction false} WaitingIsEnough(c: Config, es: seq<Event>, m: nat, n: nat)
    requires Timely(es) && m < n < |es| && es[m].Begin? && es[n].Begin? && !Forwarded(c, es, m)
    requires es[n].at >= es[m].at + RetryAfter(c, Run(c, es[..m]), es[m].at) as real
    requires forall j | m <= j < n :: !Opens(c, es, j)
    ensures Forwarded(c, es, n)
  {
    OpenedInThePast(c, es[..m], es[m].at);
    OpenedAtIsKept(c, es, m, n);
    CeilFacts(RemainingOpen(c, Run(c, es[..m]), es[m].at), c.openFor);
  }

  // ---------- Half open ----------

  predicate Ends(e: Event) { e.Succeed? || e.Fail? }

  /** Step j turned the breaker HALF_OPEN, and it has been so until step m. */
  predicate Episode(c: Config, es: seq<Event>, j: nat, m: nat) {
    j < m <= |es| && forall k | j < k <= m :: Run(c, es[..k]).state.HALF_OPEN?
  }

  /** An episode lasts exactly until a call ends with an answer or a failure,
      whichever call that is. */
  lemma {:induction false} EpisodeIff(c: Config, es: seq<Event>, j: nat, m: nat)
    requires j < m <= |es| && Run(c, es[..j + 1]).state.HALF_OPEN?
    ensures Episode(c, es, j, m) <==> forall k | j < k < m :: !Ends(es[k])
  {
    if m > j + 1 {
      EpisodeIff(c, es, j, m - 1);
      assert es[..m][..m - 1] == es[..m - 1];
      if Episode(c, es, j, m - 1) { assert Run(c, es[..m - 1]).state.HALF_OPEN?; }
      if Episode(c, es, j, m) { assert Episode(c, es, j, m - 1); }
    }
  }

  /** HALF_OPEN is not limited to one probe: as long as none has ended, every call
      that begins is forwarded, and the breaker stays as it is. */
  lemma {:induction false} EveryProbeIsForwarded(c: Config, es: seq<Event>, j: nat, m: nat)
    requires j < m < |es| && Run(c, es[..j + 1]).state.HALF_OPEN? && es[m].Begin?
    requires forall k | j < k < m :: !Ends(es[k])
    ensures Forwarded(c, es, m) && Run(c, es[..m + 1]).state.HALF_OPEN?
  {
    EpisodeIff(c, es, j, m);
    assert es[..m + 1][..m] == es[..m];
  }

  /** No second call is forwarded in the episode that step j begins. */
  predicate SingleProbe(c: Config, es: seq<Event>, j: nat) {
    forall m | j < m < |es| && Episode(c, es, j, m) && es[m].Begin? :: !Forwarded(c, es, m)
  }

  /** An episode admits one probe only exactly if every later call begins after
      some call has ended. */
  lemma {:induction false} SingleProbeIff(c: Config, es: seq<Event>, j: nat)
    requires j < |es| && Run(c, es[..j + 1]).state.HALF_OPEN?
    ensures SingleProbe(c, es, j) <==>
            forall m | j < m < |es| && es[m].Begin? :: exists k :: j < k < m && Ends(es[k])
  {
    forall m | j < m < |es| && es[m].Begin?
      ensures Episode(c, es, j, m) <==> !exists k :: j < k < m && Ends(es[k])
      ensures Episode(c, es, j, m) ==> Forwarded(c, es, m)
    {
      EpisodeIff(c, es, j, m);
      if Episode(c, es, j, m) { EveryProbeIsForwarded(c, es, j, m); }
    }
  }

  /** How many calls are with the provider. */
  function InFlight(c: Config, es: seq<Event>): int {
    if es == [] then 0
    else
      var n := |es| - 1;
      InFlight(c, es[..n]) + if Forwarded(c, es, n) then 1 else if es[n].Begin? then 0 else -1
  }

  /** Only a call that was forwarded can end. */
  predicate Possible(c: Config, es: seq<Event>) {
    es != [] ==>
      var n := |es| - 1;
      Possible(c, es[..n]) && (es[n].Begin? || InFlight(c, es[..n]) > 0)
  }

  /** k calls that begin and fail at once, one after the other. */
  function Failing(k: nat): seq<Event> {
    if k == 0 then [] else Failing(k - 1) + [Begin(0.0)] + [Fail(0.0)]
  }

  /** Threshold-many of them, and then calls that only begin, when the breaker
      has been open for its time. */
  function Probing(c: Config, probes: nat): seq<Event> {
    if probes == 0 then Failing(c.threshold) else Probing(c, probes - 1) + [Begin(c.openFor)]
  }

  lemma {:induction false} StepOfHistory(c: Config, es: seq<Event>, e: Event)
    ensures Run(c, es + [e]) == Step(c, Run(c, es), e)
    ensures InFlight(c, es + [e])
            == InFlight(c, es) + if !e.Begin? then -1 else if Rejects(c, Run(c, es), e.at) then 0 else 1
    ensures Possible(c, es) && (e.Begin? || InFlight(c, es) > 0) ==> Possible(c, es + [e])
  {
    assert (es + [e])[..|es|] == es;
  }

  /** CLOSED, with k failures at time zero behind it. */
  predicate FailedAtZero(b: Breaker, k: nat) {
    b.state.CLOSED? && |b.failures| == k && forall t | t in b.failures :: t == 0.0
  }

  lemma OneMoreFailure(c: Config, b: Breaker, k: nat)
    requires ValidConfig(c) && FailedAtZero(b, k) && k < c.threshold
    ensures var a := Step(c, b, Fail(0.0));
            if k + 1 < c.threshold then FailedAtZero(a, k + 1) else a.state.OPEN? && a.openedAt == 0.0
  {
    assert b.failures != [] ==> b.failures[0] in b.failures;
    assert DropOld(b.failures + [0.0], 0.0 - c.window) == b.failures + [0.0];
  }

  lemma {:induction false} FailingStates(c: Config, k: nat)
    requires ValidConfig(c) && k <= c.threshold
    ensures Possible(c, Failing(k)) && InFlight(c, Failing(k)) == 0
    ensures var b := Run(c, Failing(k));
            if k < c.threshold then FailedAtZero(b, k) else b.state.OPEN? && b.openedAt == 0.0
  {
    if k > 0 {
      FailingStates(c, k - 1);
      StepOfHistory(c, Failing(k - 1), Begin(0.0));
      StepOfHistory(c, Failing(k - 1) + [Begin(0.0)], Fail(0.0));
      OneMoreFailure(c, Run(c, Failing(k - 1)), k - 1);
    }
  }

  lemma {:induction false} FailingIsTimely(k: nat)
    ensures forall e | e in Failing(k) :: e.at == 0.0
  {
    if k > 0 { FailingIsTimely(k - 1); }
  }

  lemma {:induction false} ProbingIsTimely(c: Config, probes: nat)
    requires ValidConfig(c)
    ensures Timely(Probing(c, probes)) && forall e | e in Probing(c, probes) :: e.at <= c.openFor
  {
    if probes == 0 {
      FailingIsTimely(c.threshold);
    } else {
      ProbingIsTimely(c, probes - 1);
      var es := Probing(c, probes - 1);
      assert forall i | 0 <= i < |es| :: es[i] in es;
      OneMoreStep(c, es, Begin(c.openFor));
    }
  }

  lemma {:induction false} ProbingStates(c: Config, probes: nat)
    requires ValidConfig(c)
    ensures var es := Probing(c, probes);
            Possible(c, es) && InFlight(c, es) == probes
            && if probes == 0 then Run(c, es).state.OPEN? && Run(c, es).openedAt == 0.0 else Run(c, es).state.HALF_OPEN?
  {
    if probes == 0 {
      FailingStates(c, c.threshold);
    } else {
      ProbingStates(c, probes - 1);
      StepOfHistory(c, Probing(c, probes - 1), Begin(c.openFor));
    }
  }

  /** Such an episode does happen, with as many calls in flight as there are
      callers. */
  lemma {:induction false} ProbesWithoutLimit(c: Config, probes: nat)
    requires ValidConfig(c) && probes > 0
    ensures var es := Probing(c, probes);
            Timely(es) && Possible(c, es) && Run(c, es).state.HALF_OPEN? && InFlight(c, es) == probes
  {
    ProbingIsTimely(c, probes);
    ProbingStates(c, probes);
  }

  // ---------- The object ----------

  function FailuresIn(es: seq<Event>): nat {
    if es == [] then 0 else FailuresIn(es[..|es| - 1]) + if es[|es| - 1].Fail? then 1 else 0
  }

  function SuccessesIn(es: seq<Event>): nat {
    if es == [] then 0 else SuccessesIn(es[..|es| - 1]) + if es[|es| - 1].Succeed? then 1 else 0
  }

  /** The counters are never reset. */
  lemma {:induction false} CountersCount(c: Config, es: seq<Event>)
    ensures Run(c, es).failureCount == FailuresIn(es) && Run(c, es).successCount == SuccessesIn(es)
  {
    if es != [] { CountersCount(c, es[..|es| - 1]); }
  }

  /** One more step, seen from every part of the object's invariant. */
  lemma {:induction false} OneMoreStep(c: Config, es: seq<Event>, e: Event)
    requires Timely(es) && e.at >= 0.0 && forall i | 0 <= i < |es| :: es[i].at <= e.at
    ensures Timely(es + [e]) && Run(c, es + [e]) == Step(c, Run(c, es), e)
    ensures (es + [e])[..|es|] == es && (es + [e])[|es|] == e
  {
    assert (es + [e])[..|es|] == es;
  }

  lemma {:induction false} ForwardedLast(c: Config, es: seq<Event>, now: real)
    ensures Forwarded(c, es + [Begin(now)], |es|) <==> !Rejects(c, Run(c, es), now)
  {
    assert (es + [Begin(now)])[..|es|] == es;
  }

  class CircuitBreaker {
    const config: Config
    var state: State
    var failures: seq<real>
    var failureCount: nat
    var successCount: nat
    var openedAt: real
    ghost var trace: seq<Event>

    ghost predicate Valid()
      reads this
    {
      && ValidConfig(config) && Timely(trace)
      && Breaker(state, failures, openedAt, failureCount, successCount) == Run(config, trace)
    }

    /** The clock never runs back. */
    ghost predicate Now(now: real)
      reads this
    {
      now >= 0.0 && forall i | 0 <= i < |trace| :: trace[i].at <= now
    }

    constructor (config: Config)
      requires ValidConfig(config)
      ensures Valid() && trace == [] && this.config == config
    {
      this.config := config;
      state, failures, openedAt := CLOSED, [], 0.0;
      failureCount, successCount := 0, 0;
      trace := [];
    }

    ghost method Note(e: Event)
      requires ValidConfig(config) && Timely(trace) && Now(e.at)
      requires Breaker(state, failures, openedAt, failureCount, successCount) == Step(config, Run(config, trace), e)
      modifies this`trace
      ensures Valid() && trace == old(trace) + [e]
    {
      OneMoreStep(config, trace, e);
      trace := trace + [e];
    }

    /** The entry of `call`: forward, or reject with a delay. */
    method BeginCall(now: real) returns (forwarded: bool, retryAfter: int)
      requires Valid() && Now(now)
      modifies this
      ensures Valid() && trace == old(trace) + [Begin(now)]
      ensures forwarded == Forwarded(config, trace, |old(trace)|)
      ensures !forwarded ==> retryAfter == RetryAfter(config, Run(config, old(trace)), now)
    {
      forwarded, retryAfter := true, 0;
      if state == OPEN {
        var remaining := config.openFor - (now - openedAt);
        if remaining <= 0.0 {
          state := HALF_OPEN;
        } else {
          forwarded, retryAfter := false, Ceil(remaining);
        }
      }
      ForwardedLast(config, trace, now);
      Note(Begin(now));
    }

    method RecordSuccess(now: real)
      requires Valid() && Now(now)
      modifies this
      ensures Valid() && trace == old(trace) + [Succeed(now)]
    {
      if state == HALF_OPEN {
        state := CLOSED;
        failures := [];
      }
      successCount := successCount + 1;
      Note(Succeed(now));
    }

    /** The `popleft` loop. */
    method DropOldFailures(cutoff: real)
      modifies this`failures
      ensures failures == DropOld(old(failures), cutoff)
    {
      while failures != [] && failures[0] < cutoff
        invariant DropOld(failures, cutoff) == DropOld(old(failures), cutoff)
        decreases |failures|
      {
        failures := failures[1..];
      }
    }

    method RecordFailure(now: real)
      requires Valid() && Now(now)
      modifies this
      ensures Valid() && trace == old(trace) + [Fail(now)]
    {
      failures := failures + [now];
      failureCount := failureCount + 1;
      DropOldFailures(now - config.window);
      if state == HALF_OPEN || |failures| >= config.threshold {
        state := OPEN;
        openedAt := now;
        failures := [];
      }
      Note(Fail(now));
    }
  }
}
