/** What the failures of some providers do to the others, and to themselves, over
    whole runs of the global listing. */
module Failures {
  import opened Option
  import opened Cursors
  import opened Paging
  import opened FanOut
  import opened Runs
  import opened Listing
  import opened Adapters
  import opened RealListing

  // ---------- Failures of others ----------

  /** p answers on every turn, and the page limit is the same on all of them. */
  ghost predicate ServedRun(turns: seq<Turn>, page: nat, p: string, s: Stream, sizes: nat -> bool) {
    IsProvider(p) && s.pos(None) == 0 && forall t | t in turns :: PageLimit(t.limit) == page && Serves(t, p, s, sizes)
  }

  /** If the run is over, ended or aborted, it has emitted all of s. */
  ghost predicate Covers(turns: seq<Turn>, p: string, s: Stream) {
    !Follow(ListPage, None, turns).Unfinished? ==> Of(p, Follow(ListPage, None, turns).items) == s.items
  }

  /** A stream of one SIM on one page. */
  function Single(): Stream { Stream(["8934"], c => 0) }

  /** Only Moabits answers. */
  function OnlyMoabits(): Env {
    Env(p => Ready, (p, c, n: nat) => if p == "moabits" then Page(["8934"], None) else Failed)
  }

  lemma {:induction false} NothingGot(fetch: Fetcher, calls: seq<Call>, limits: seq<nat>)
    requires |calls| == |limits| && forall i | 0 <= i < |calls| :: Got(fetch, calls[i], limits[i]) == []
    ensures Items(fetch, calls, limits) == []
  {
    if calls != [] { NothingGot(fetch, calls[..|calls| - 1], limits[..|calls| - 1]); }
  }

  lemma {:induction false} FailedCall(fetch: Fetcher, calls: seq<Call>, limits: seq<nat>, i: nat)
    requires |calls| == |limits| && i < |calls| && limits[i] > 0
    requires fetch(calls[i].key, calls[i].cursor, limits[i]).Failed?
    ensures calls[i].key in FailedKeys(fetch, calls, limits)
  {
    if i < |calls| - 1 { FailedCall(fetch, calls[..|calls| - 1], limits[..|calls| - 1], i); }
  }

  /** With a limit of 1 or 2 the first page leaves Moabits out and raises. */
  lemma FirstPageRaises(page: nat)
    requires 1 <= page <= 2
    ensures ListPage(None, Turn(page, OnlyMoabits())).Raised?
  {
    var env := OnlyMoabits();
    var calls, limits := Calls(env, None, PROVIDERS), Limits(env, None, PROVIDERS, page);
    CallsOfThree(env, None, "kite", "tele2", "moabits");
    assert calls == [Call("kite", None), Call("tele2", None), Call("moabits", None)];
    assert |"kite"| == 4 && |"tele2"| == 5 && |"moabits"| == 7;
    ZeroShare(page, 3, 0);
    ZeroShare(page, 3, 2);
    NothingGot(env.fetch, calls, limits);
    FailedCall(env.fetch, calls, limits, 0);
  }

  lemma MoabitsServes(page: nat)
    requires 1 <= page <= 500
    ensures ServedRun([Turn(page, OnlyMoabits())], page, "moabits", Single(), (n: nat) => true)
  {
    assert IsProvider("moabits");
  }

  /** A provider that always answers is delivered whole by every run that is over,
      whatever the others do, exactly when the page limit is at least three. With
      a smaller one the failures of those that have the share abort the run. */
  lemma {:induction false} FinishedRunsCoverIff(page: nat)
    requires 1 <= page <= 500
    ensures (forall turns, p, s, sizes: nat -> bool | ServedRun(turns, page, p, s, sizes) :: Covers(turns, p, s))
            <==> page >= 3
  {
    if page >= 3 {
      forall turns, p, s, sizes: nat -> bool | ServedRun(turns, page, p, s, sizes) ensures Covers(turns, p, s) {
        if !Follow(ListPage, None, turns).Unfinished? { FinishedRunCoversProvider(turns, p, s, sizes); }
      }
    } else {
      var turns := [Turn(page, OnlyMoabits())];
      FirstPageRaises(page);
      MoabitsServes(page);
      assert Follow(ListPage, None, turns) == Aborted([]);
      assert !Covers(turns, "moabits", Single());
    }
  }

  // ---------- Its own failure ----------

  /** Kite fails; the others answer. */
  function WithoutKite(lists: Lists, w: Window): Env {
    Env(p => Ready, (p, c, n: nat) => if p == "kite" then Failed else RealPage(lists, w, p, c, n))
  }

  lemma FirstTurnBehaves(lists: Lists, w: Window, page: nat)
    requires Bootstrap(w)
    ensures Behaves(Turn(page, WithoutKite(lists, w)), Streams(lists, w))
  {
    forall p, c, n: nat | IsProvider(p) && OnTrack(StreamOf(lists, w, 1, p), At(c))
      ensures MovesOn(StreamOf(lists, w, 1, p), c, WithoutKite(lists, w).fetch(p, c, n))
    {
      if p != "kite" { RealAnswerMovesOn(lists, w, p, c, n); }
    }
  }

  lemma MoabitsKeepsServing(lists: Lists, t: Turn)
    requires forall p :: t.env.setup(p).Ready?
    requires forall c, n: nat :: t.env.fetch("moabits", c, n) == MoabitsPage(lists.moabits, c, n)
    ensures Serves(t, "moabits", OffsetStream(lists.moabits), (n: nat) => true)
  {
    forall c, n: nat | OnTrack(OffsetStream(lists.moabits), At(c))
      ensures Meets(OffsetStream(lists.moabits), c, n, t.env.fetch("moabits", c, n))
    {
      MoabitsMeets(lists.moabits, c, n);
    }
  }

  lemma RealTurnServesMoabits(t: Turn, lists: Lists, page: nat)
    requires RealTurn(t, lists, page)
    ensures Serves(t, "moabits", OffsetStream(lists.moabits), (n: nat) => true)
  {
    assert |"kite"| == 4 && |"tele2"| == 5 && |"moabits"| == 7;
    MoabitsKeepsServing(lists, t);
  }

  lemma ShareIsPart(env: Env, page: nat, p: string)
    ensures ShareOf(env, None, PROVIDERS, page, p) <= page
  {
    var calls := Calls(env, None, PROVIDERS);
    if i :| 0 <= i < |calls| && calls[i].key == p && ShareOf(env, None, PROVIDERS, page, p) == Share(page, |calls|, i) {
      ShareAtMost(page, |calls|, i);
    }
  }

  lemma MoabitsHasMore(list: seq<Sim>, share: nat)
    requires 0 < share <= 500 && |list| > share
    ensures var f := MoabitsPage(list, None, share); f.items != [] && f.next.Some?
  {
    StartOfDecimal(0);
  }

  /** The first page goes through, if Moabits has items for it. */
  lemma FirstPageIsListed(t: Turn, page: nat)
    requires 3 <= page && PageLimit(t.limit) == page && t.env.setup("moabits").Ready?
    requires var f := t.env.fetch("moabits", None, ShareOf(t.env, None, PROVIDERS, page, "moabits"));
             f.Page? && f.items != [] && f.next.Some?
    ensures var r := ListPage(None, t); r.Listed? && r.next.Some?
  {
    assert IsProvider("moabits");
    ProvidersDiffer();
    EveryoneGetsShare(t.env, None, page, "moabits");
    PageOfProvider(t.env, None, PROVIDERS, page, "moabits");
    MadeCall(t.env.fetch, Call("moabits", None), ShareOf(t.env, None, PROVIDERS, page, "moabits"));
    NextCursorDecodes(None, t, "moabits");
  }

  lemma FirstPageOfMoabits(lists: Lists, w: Window, page: nat)
    requires 3 <= page <= 500 && |lists.moabits| > page
    ensures var r := ListPage(None, Turn(page, WithoutKite(lists, w))); r.Listed? && r.next.Some?
  {
    var t := Turn(page, WithoutKite(lists, w));
    assert |"kite"| == 4 && |"tele2"| == 5 && |"moabits"| == 7;
    assert IsProvider("moabits");
    EveryoneGetsShare(t.env, None, page, "moabits");
    ShareIsPart(t.env, page, "moabits");
    MoabitsHasMore(lists.moabits, ShareOf(t.env, None, PROVIDERS, page, "moabits"));
    FirstPageIsListed(t, page);
  }

  /** Kite fails once, on the first page, and answers ever after. Whatever its
      list, the run ends without any of it, though Moabits' list is whole. */
  lemma {:induction false} RecoveryComesTooLate(turns: seq<Turn>, lists: Lists, w: Window, page: nat)
    requires Bootstrap(w) && 3 <= page <= 500 && |lists.moabits| > page
    requires |turns| >= |lists.kite| + |lists.tele2| + |lists.moabits| + 3
    requires turns[0] == Turn(page, WithoutKite(lists, w)) && forall t | t in turns[1..] :: RealTurn(t, lists, page)
    ensures var j := Follow(ListPage, None, turns);
            j.Ended? && Of("kite", j.items) == [] && Of("moabits", j.items) == lists.moabits
            && SentAt(ListPage, None, turns, 1).Sent?
  {
    var r := ListPage(None, turns[0]);
    FirstPageOfMoabits(lists, w, page);
    forall t, c | t in turns[1..] ensures ListPage(c, t).Listed? { RealPageIsListed(t, lists, page, c); }
    RunIsNotAborted(ListPage, r.next, turns[1..]);
    forall t | t in turns
      ensures Behaves(t, Streams(lists, w)) && Serves(t, "moabits", OffsetStream(lists.moabits), (n: nat) => true)
    {
      if t == turns[0] {
        FirstTurnBehaves(lists, w, page);
        assert |"kite"| == 4 && |"tele2"| == 5 && |"moabits"| == 7;
        MoabitsKeepsServing(lists, t);
      } else {
        assert t in turns[1..];
        RealTurnBehaves(t, lists, w, page);
        RealTurnServesMoabits(t, lists, page);
      }
    }
    StreamsFacts(lists, w);
    RunTerminates(turns, Streams(lists, w));
    KiteIsDropped(turns, lists, w, page);
    StartOfDecimal(0);
    assert IsProvider("moabits");
    RunCoversProvider(turns, "moabits", OffsetStream(lists.moabits), (n: nat) => true);
  }

  lemma {:induction false} KiteIsDropped(turns: seq<Turn>, lists: Lists, w: Window, page: nat)
    requires 3 <= page <= 500 && turns != [] && turns[0] == Turn(page, WithoutKite(lists, w))
    ensures Of("kite", Follow(ListPage, None, turns).items) == []
  {
    assert IsProvider("kite");
    EveryoneGetsShare(turns[0].env, None, page, "kite");
    assert Fails(DecodeGlobal(None), turns[0], "kite");
    FailureDropsProvider(None, turns, "kite");
  }

  /** One SIM of Kite, and five of Moabits. */
  function ShortLists(): Lists { Lists(["8900"], [], ["8901", "8902", "8903", "8904", "8905"]) }

  /** Kite fails on the first page of a run with a limit of three. */
  function FailureTurns(): seq<Turn> {
    [Turn(3, WithoutKite(ShortLists(), AnyWindow()))] + seq(9, i => Turn(3, RealEnv(ShortLists(), AnyWindow())))
  }

  /** A run that ends without Kite's SIM. */
  lemma {:induction false} OneFailureLosesSim()
    ensures var j := Follow(ListPage, None, FailureTurns());
            j.Ended? && Of("kite", j.items) == [] && Of("moabits", j.items) == ShortLists().moabits
  {
    var t := Turn(3, RealEnv(ShortLists(), AnyWindow()));
    assert RealTurn(t, ShortLists(), 3);
    assert FailureTurns()[1..] == seq(9, i => t);
    RecoveryComesTooLate(FailureTurns(), ShortLists(), AnyWindow(), 3);
  }
}
